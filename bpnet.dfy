/**
 * The plain back-propagation network of bpnet.hpp: its parameter layout
 * (one square weight buffer per layer, indexed to + largest*from), the
 * data size and the layer -> node -> (bias, incoming weights) order in which
 * save and load walk a flat buffer, and which cells weight initialisation and
 * the gradient step touch.
 */
module Backprop {
  import opened Common
  import opened Net
  import Data
  import DataLegacy

  /** Largest of the layer counts, 0 when there are none (bpnet.hpp:37-47). */
  function MaxOf(s: seq<nat>): (m: nat)
    ensures forall k :: 0 <= k < |s| ==> s[k] <= m
    ensures (s == [] && m == 0) || (exists k :: 0 <= k < |s| && s[k] == m)
  {
    if s == [] then 0
    else
      var m0 := MaxOf(s[..|s| - 1]);
      assert forall k :: 0 <= k < |s| - 1 ==> s[..|s| - 1][k] == s[k];
      if s[|s| - 1] > m0 then s[|s| - 1] else m0
  }

  // ---------------------------------------------------------------------
  // The square weight buffer
  // ---------------------------------------------------------------------

  /** Position of the weight from node `from` of layer l-1 to node `to` of layer l (bpnet.hpp:249-251). */
  function Cell(L: nat, to: nat, from: nat): nat { to + L * from }

  /** Every cell addressed with both node indices below L lies in the L*L buffer. */
  lemma CellBound(L: nat, to: nat, from: nat)
    requires to < L && from < L
    ensures Cell(L, to, from) < L * L
  {
    Data.MulMonotone(L, from + 1, L);
  }

  /** A cell determines its node pair: `to` is the remainder and `from` the quotient by L. */
  lemma CellDecode(L: nat, to: nat, from: nat)
    requires to < L
    ensures Cell(L, to, from) % L == to && Cell(L, to, from) / L == from
  {
    var c := Cell(L, to, from);
    var q := c / L;
    if q < from {
      Data.MulMonotone(L, q + 1, from);
      assert false;
    } else if q > from {
      Data.MulMonotone(L, from + 1, q);
      assert false;
    }
  }

  /** Hence distinct node pairs address distinct cells. */
  lemma CellInjective(L: nat, to1: nat, from1: nat, to2: nat, from2: nat)
    requires to1 < L && to2 < L
    requires Cell(L, to1, from1) == Cell(L, to2, from2)
    ensures to1 == to2 && from1 == from2
  {
    CellDecode(L, to1, from1);
    CellDecode(L, to2, from2);
  }

  /** Every cell of the buffer is addressed by its remainder and quotient. */
  lemma CellOf(L: nat, c: nat)
    requires 0 < L
    ensures 0 <= c / L && c % L < L
    ensures Cell(L, c % L, c / L) == c
  {
  }

  /**
   * Cell c of layer l's buffer carries a real connection: l has a previous
   * layer, c's `to` index is a node of layer l and its `from` index a node of
   * layer l-1. All other cells are never read by the network.
   */
  predicate InShape(sizes: seq<nat>, L: nat, l: nat, c: nat)
  {
    1 <= l < |sizes| && 0 < L && c < L * L && c % L < sizes[l] && c / L < sizes[l - 1]
  }

  // ---------------------------------------------------------------------
  // Data size and serial layout
  // ---------------------------------------------------------------------

  /** Size of the layer before i, 0 before the input layer. */
  function Prev(sizes: seq<nat>, i: nat): nat
    requires i < |sizes|
  {
    if i == 0 then 0 else sizes[i - 1]
  }

  /** Values a node of layer i occupies in the flat buffer: its bias and its incoming weights. */
  function Stride(sizes: seq<nat>, i: nat): nat
    requires i < |sizes|
  {
    1 + Prev(sizes, i)
  }

  /**
   * n blocks of st values each: n * st, written as a repeated sum so that
   * offsets stay linear arithmetic (SpanIsProduct).
   */
  function Span(n: nat, st: nat): nat
  {
    if n == 0 then 0 else Span(n - 1, st) + st
  }

  lemma {:induction false} SpanMonotone(m: nat, n: nat, st: nat)
    requires m <= n
    ensures Span(m, st) <= Span(n, st)
    decreases n
  {
    if m < n {
      SpanMonotone(m, n - 1, st);
    }
  }

  lemma {:induction false} SpanIsProduct(n: nat, st: nat)
    ensures Span(n, st) == n * st
  {
    if n > 0 {
      SpanIsProduct(n - 1, st);
    }
  }

  /** Values taken by layers 0..n-1: the sum of size_l * (1 + size_{l-1}). */
  function LayerOffset(sizes: seq<nat>, n: nat): nat
    requires n <= |sizes|
  {
    if n == 0 then 0 else LayerOffset(sizes, n - 1) + Span(sizes[n - 1], Stride(sizes, n - 1))
  }

  /** getDataSize (bpnet.hpp:134-149): every layer, the input layer's biases included. */
  function DataSize(sizes: seq<nat>): nat
  {
    LayerOffset(sizes, |sizes|)
  }

  /** For three layers (a, b, c): a biases, then b*(a+1) and c*(b+1) values. */
  lemma {:induction false} DataSizeThreeLayers(a: nat, b: nat, c: nat)
    ensures DataSize([a, b, c]) == a + b * (a + 1) + c * (b + 1)
  {
    var s := [a, b, c];
    SpanIsProduct(a, 1);
    SpanIsProduct(b, a + 1);
    SpanIsProduct(c, b + 1);
    calc {
      DataSize(s);
      LayerOffset(s, 3);
      LayerOffset(s, 2) + Span(c, Stride(s, 2));
      LayerOffset(s, 1) + Span(b, Stride(s, 1)) + Span(c, Stride(s, 2));
      LayerOffset(s, 0) + Span(a, Stride(s, 0)) + Span(b, Stride(s, 1)) + Span(c, Stride(s, 2));
    }
  }

  lemma {:induction false} LayerOffsetMonotone(sizes: seq<nat>, m: nat, n: nat)
    requires m <= n <= |sizes|
    ensures LayerOffset(sizes, m) <= LayerOffset(sizes, n)
    decreases n - m
  {
    if m < n {
      LayerOffsetMonotone(sizes, m, n - 1);
    }
  }

  /** Layer i's values follow those of the layers before it, within the data size. */
  lemma LayerOffsetStep(sizes: seq<nat>, i: nat)
    requires i < |sizes|
    ensures LayerOffset(sizes, i + 1) == LayerOffset(sizes, i) + Span(sizes[i], Stride(sizes, i))
    ensures LayerOffset(sizes, i) <= LayerOffset(sizes, i + 1) <= DataSize(sizes)
  {
    LayerOffsetMonotone(sizes, i + 1, |sizes|);
  }

  /** The parameters a network serialises: biases[layer][node] and weights[layer][cell]. */
  datatype Params = Params(biases: seq<seq<real>>, weights: seq<seq<real>>)

  /** Every layer fits in an L-node square buffer. */
  predicate Fits(sizes: seq<nat>, L: nat)
  {
    forall i :: 0 <= i < |sizes| ==> sizes[i] <= L
  }

  /** Layer i's bias row b holds one bias per node and its weight buffer w has L*L cells. */
  predicate Row(sizes: seq<nat>, L: nat, i: nat, b: seq<real>, w: seq<real>)
  {
    i < |sizes| && Fits(sizes, L) && |b| == sizes[i] && |w| == L * L
  }

  /** One bias per node and an L*L weight buffer per layer. */
  predicate Shaped(sizes: seq<nat>, L: nat, p: Params)
  {
    && Fits(sizes, L)
    && |p.biases| == |sizes| && |p.weights| == |sizes|
    && (forall i :: 0 <= i < |sizes| ==> |p.biases[i]| == sizes[i])
    && (forall i :: 0 <= i < |sizes| ==> |p.weights[i]| == L * L)
  }

  /** The weight into node `to` from node `from` of the previous layer, in weight buffer w. */
  function Weight(L: nat, w: seq<real>, to: nat, from: nat): real
    requires |w| == L * L && to < L && from < L
  {
    CellBound(L, to, from);
    w[Cell(L, to, from)]
  }

  /** The incoming weights of node j of layer i, in `from` order; none for the input layer. */
  function NodeWeights(sizes: seq<nat>, L: nat, i: nat, w: seq<real>, j: nat): (r: seq<real>)
    requires i < |sizes| && Fits(sizes, L) && |w| == L * L && j < sizes[i]
    ensures |r| == Prev(sizes, i)
  {
    if i == 0 then []
    else
      assert sizes[i - 1] <= L;
      seq(sizes[i - 1], k requires 0 <= k < sizes[i - 1] => Weight(L, w, j, k))
  }

  /** What save writes for node j of layer i (bpnet.hpp:160-165): its bias, then its weights. */
  function NodeBlock(sizes: seq<nat>, L: nat, i: nat, b: seq<real>, w: seq<real>, j: nat): (r: seq<real>)
    requires Row(sizes, L, i, b, w) && j < sizes[i]
    ensures |r| == Stride(sizes, i)
  {
    [b[j]] + NodeWeights(sizes, L, i, w, j)
  }

  /** The blocks of the nodes of layer i, in node order. */
  function LayerBlocks(sizes: seq<nat>, L: nat, i: nat, b: seq<real>, w: seq<real>): (r: seq<seq<real>>)
    requires Row(sizes, L, i, b, w)
    ensures |r| == sizes[i]
  {
    seq(sizes[i], j requires 0 <= j < sizes[i] => NodeBlock(sizes, L, i, b, w, j))
  }

  /** The image of layer i: its node blocks one after the other. */
  function LayerImage(sizes: seq<nat>, L: nat, i: nat, b: seq<real>, w: seq<real>): seq<real>
    requires Row(sizes, L, i, b, w)
  {
    Concat(LayerBlocks(sizes, L, i, b, w))
  }

  /** The images of the layers, in layer order. */
  function LayerImages(sizes: seq<nat>, L: nat, p: Params): (r: seq<seq<real>>)
    requires Shaped(sizes, L, p)
    ensures |r| == |sizes|
  {
    seq(|sizes|, i requires 0 <= i < |sizes| => LayerImage(sizes, L, i, p.biases[i], p.weights[i]))
  }

  /** The flat image save produces (bpnet.hpp:151-168): layer by layer, node by node. */
  function Serialised(sizes: seq<nat>, L: nat, p: Params): seq<real>
    requires Shaped(sizes, L, p)
  {
    Concat(LayerImages(sizes, L, p))
  }

  /** Where save puts node j of layer i. */
  function NodeOffset(sizes: seq<nat>, i: nat, j: nat): nat
    requires i < |sizes|
  {
    LayerOffset(sizes, i) + Span(j, Stride(sizes, i))
  }

  // Concatenation of blocks, and where each block lands in it.

  function Concat<T>(bs: seq<seq<T>>): seq<T>
  {
    if bs == [] then [] else Concat(bs[..|bs| - 1]) + bs[|bs| - 1]
  }

  lemma ConcatSnoc<T>(bs: seq<seq<T>>, j: nat)
    requires j < |bs|
    ensures Concat(bs[..j + 1]) == Concat(bs[..j]) + bs[j]
  {
    assert bs[..j + 1][..j] == bs[..j];
  }

  lemma {:induction false} ConcatUniformLength<T>(bs: seq<seq<T>>, w: nat)
    requires forall k :: 0 <= k < |bs| ==> |bs[k]| == w
    ensures |Concat(bs)| == Span(|bs|, w)
  {
    if bs != [] {
      ConcatUniformLength(bs[..|bs| - 1], w);
    }
  }

  lemma {:induction false} ConcatPrefix<T>(bs: seq<seq<T>>, j: nat)
    requires j <= |bs|
    ensures Concat(bs[..j]) <= Concat(bs)
    decreases |bs|
  {
    if j == |bs| {
      assert bs[..j] == bs;
    } else {
      var front := bs[..|bs| - 1];
      ConcatPrefix(front, j);
      assert front[..j] == bs[..j];
      assert Concat(bs) == Concat(front) + bs[|bs| - 1];
    }
  }

  /** Block j of bs sits in Concat(bs) right after the blocks before it. */
  lemma ConcatAt<T>(bs: seq<seq<T>>, j: nat)
    requires j < |bs|
    ensures var o := |Concat(bs[..j])|;
      o + |bs[j]| <= |Concat(bs)| && Concat(bs)[o .. o + |bs[j]|] == bs[j]
  {
    ConcatPrefix(bs, j + 1);
    ConcatSnoc(bs, j);
  }

  lemma SliceWithin<T>(s: seq<T>, t: seq<T>, u: seq<T>, a: nat, b: nat, o: nat)
    requires a + |t| <= |s| && s[a .. a + |t|] == t
    requires b + |u| <= |t| && t[b .. b + |u|] == u
    requires o == a + b
    ensures o + |u| <= |s| && s[o .. o + |u|] == u
  {
    assert forall k :: 0 <= k < |u| ==> u[k] == t[b + k] == s[o + k];
  }

  /** Reading one more block from the buffer extends the concatenation read so far. */
  lemma AppendImage<T>(blocks: seq<seq<T>>, block: seq<T>, buf: seq<T>, base: nat, g: nat, next: nat)
    requires base <= g <= next <= |buf|
    requires Concat(blocks) == buf[base .. g] && block == buf[g .. next]
    ensures Concat(blocks + [block]) == buf[base .. next]
  {
    assert (blocks + [block])[..|blocks|] == blocks;
    assert buf[base .. next] == buf[base .. g] + buf[g .. next];
  }

  /** Images that are those of the layers of p, in order, concatenate to p's serialisation. */
  lemma ImagesSerialised(sizes: seq<nat>, L: nat, p: Params, images: seq<seq<real>>)
    requires Shaped(sizes, L, p) && |images| == |sizes|
    requires forall l :: 0 <= l < |sizes| ==> images[l] == LayerImage(sizes, L, l, p.biases[l], p.weights[l])
    ensures Concat(images) == Serialised(sizes, L, p)
  {
    assert images == LayerImages(sizes, L, p);
  }

  /** after is before with positions from..to-1 overwritten by content. */
  ghost predicate Written<T>(before: seq<T>, after: seq<T>, from: nat, to: nat, content: seq<T>)
  {
    && |after| == |before| && from <= to <= |after|
    && after[from .. to] == content
    && forall q :: 0 <= q < |after| && !(from <= q < to) ==> after[q] == before[q]
  }

  /** Two writes to adjacent stretches make one write of their concatenation. */
  lemma WrittenThen<T>(s0: seq<T>, s1: seq<T>, s2: seq<T>, a: nat, m: nat, n: nat, c1: seq<T>, c2: seq<T>)
    requires Written(s0, s1, a, m, c1) && Written(s1, s2, m, n, c2)
    ensures Written(s0, s2, a, n, c1 + c2)
  {
    assert forall q :: a <= q < m ==> s2[q] == s1[q];
    assert s2[a .. n] == s2[a .. m] + s2[m .. n];
  }

  /** after is before with content put in place from position from on. */
  ghost predicate Spliced<T>(before: seq<T>, after: seq<T>, from: nat, content: seq<T>)
  {
    from + |content| <= |before| && after == before[..from] + content + before[from + |content|..]
  }

  /** A write of a stretch, position by position, is a splice of its content. */
  lemma WrittenSpliced<T>(before: seq<T>, after: seq<T>, from: nat, to: nat, content: seq<T>)
    requires Written(before, after, from, to, content)
    ensures Spliced(before, after, from, content)
  {
    assert after == after[..from] + after[from..to] + after[to..];
  }

  /** Two splices of adjacent stretches make one splice of their concatenation. */
  lemma SplicedThen<T>(s0: seq<T>, s1: seq<T>, s2: seq<T>, a: nat, m: nat, c1: seq<T>, c2: seq<T>)
    requires Spliced(s0, s1, a, c1) && Spliced(s1, s2, m, c2) && m == a + |c1|
    ensures Spliced(s0, s2, a, c1 + c2)
  {
    assert s1[..m] == s0[..a] + c1;
    assert s1[m + |c2|..] == s0[m + |c2|..];
  }

  /** A layer's image is one stride per node long. */
  lemma LayerImageLength(sizes: seq<nat>, L: nat, i: nat, b: seq<real>, w: seq<real>)
    requires Row(sizes, L, i, b, w)
    ensures |LayerImage(sizes, L, i, b, w)| == Span(sizes[i], Stride(sizes, i))
  {
    ConcatUniformLength(LayerBlocks(sizes, L, i, b, w), Stride(sizes, i));
  }

  /** Images of the layers' lengths, concatenated up to layer n, end at LayerOffset(n). */
  lemma {:induction false} ImagesLength<T>(sizes: seq<nat>, images: seq<seq<T>>, n: nat)
    requires |images| == |sizes| && n <= |sizes|
    requires forall l :: 0 <= l < |sizes| ==> |images[l]| == Span(sizes[l], Stride(sizes, l))
    ensures |Concat(images[..n])| == LayerOffset(sizes, n)
  {
    if n > 0 {
      ImagesLength(sizes, images, n - 1);
      ConcatSnoc(images, n - 1);
    }
  }

  lemma LayersLength(sizes: seq<nat>, L: nat, p: Params, n: nat)
    requires Shaped(sizes, L, p) && n <= |sizes|
    ensures |Concat(LayerImages(sizes, L, p)[..n])| == LayerOffset(sizes, n)
  {
    var images := LayerImages(sizes, L, p);
    forall l | 0 <= l < |sizes|
      ensures |images[l]| == Span(sizes[l], Stride(sizes, l))
    {
      LayerImageLength(sizes, L, l, p.biases[l], p.weights[l]);
    }
    ImagesLength(sizes, images, n);
  }

  /** save writes exactly getDataSize() values. */
  lemma SerialisedLength(sizes: seq<nat>, L: nat, p: Params)
    requires Shaped(sizes, L, p)
    ensures |Serialised(sizes, L, p)| == DataSize(sizes)
  {
    var images := LayerImages(sizes, L, p);
    LayersLength(sizes, L, p, |sizes|);
    assert images[..|sizes|] == images;
  }

  /** Lengths of the layers and nodes before node j of layer i add up to NodeOffset(i, j). */
  lemma NodeOffsetSplit(sizes: seq<nat>, L: nat, p: Params, i: nat, j: nat)
    requires Shaped(sizes, L, p) && i < |sizes| && j < sizes[i]
    ensures |Concat(LayerImages(sizes, L, p)[..i])| + |Concat(LayerBlocks(sizes, L, i, p.biases[i], p.weights[i])[..j])|
         == NodeOffset(sizes, i, j)
  {
    LayersLength(sizes, L, p, i);
    ConcatUniformLength(LayerBlocks(sizes, L, i, p.biases[i], p.weights[i])[..j], Stride(sizes, i));
  }

  /** ConcatAt for a known whole, offset and block. */
  lemma ConcatSlot<T>(bs: seq<seq<T>>, j: nat, whole: seq<T>, o: nat, block: seq<T>)
    requires j < |bs| && whole == Concat(bs) && o == |Concat(bs[..j])| && block == bs[j]
    ensures o + |block| <= |whole| && whole[o .. o + |block|] == block
  {
    ConcatAt(bs, j);
  }

  /**
   * Block j of the blocks making up image i lands right after the images
   * before i and the blocks before j.
   */
  lemma NestedAt<T>(whole: seq<T>, images: seq<seq<T>>, blocks: seq<seq<T>>, i: nat, j: nat, o: nat, block: seq<T>)
    requires i < |images| && j < |blocks| && whole == Concat(images) && images[i] == Concat(blocks) && blocks[j] == block
    requires o == |Concat(images[..i])| + |Concat(blocks[..j])|
    ensures o + |block| <= |whole| && whole[o .. o + |block|] == block
  {
    var a, b, image := |Concat(images[..i])|, |Concat(blocks[..j])|, images[i];
    ConcatSlot(images, i, whole, a, image);
    ConcatSlot(blocks, j, image, b, block);
    SliceWithin(whole, image, block, a, b, o);
  }

  /**
   * The serial format: node j of layer i occupies the Stride values from
   * NodeOffset(i, j) on, its bias first and then its incoming weights.
   */
  lemma NodeBlockAt(sizes: seq<nat>, L: nat, p: Params, i: nat, j: nat)
    requires Shaped(sizes, L, p) && i < |sizes| && j < sizes[i]
    ensures NodeOffset(sizes, i, j) + Stride(sizes, i) <= |Serialised(sizes, L, p)|
    ensures Serialised(sizes, L, p)[NodeOffset(sizes, i, j) .. NodeOffset(sizes, i, j) + Stride(sizes, i)]
         == NodeBlock(sizes, L, i, p.biases[i], p.weights[i], j)
  {
    var images, blocks := LayerImages(sizes, L, p), LayerBlocks(sizes, L, i, p.biases[i], p.weights[i]);
    NodeOffsetSplit(sizes, L, p, i, j);
    NestedAt(Serialised(sizes, L, p), images, blocks, i, j, NodeOffset(sizes, i, j),
             NodeBlock(sizes, L, i, p.biases[i], p.weights[i], j));
  }

  /** Same image, same block for every node. */
  lemma SameNode(sizes: seq<nat>, L: nat, p: Params, q: Params, i: nat, j: nat)
    requires Shaped(sizes, L, p) && Shaped(sizes, L, q) && i < |sizes| && j < sizes[i]
    requires Serialised(sizes, L, p) == Serialised(sizes, L, q)
    ensures p.biases[i][j] == q.biases[i][j]
    ensures NodeWeights(sizes, L, i, p.weights[i], j) == NodeWeights(sizes, L, i, q.weights[i], j)
  {
    NodeBlockAt(sizes, L, p, i, j);
    NodeBlockAt(sizes, L, q, i, j);
    var bp, bq := NodeBlock(sizes, L, i, p.biases[i], p.weights[i], j), NodeBlock(sizes, L, i, q.biases[i], q.weights[i], j);
    assert bp == bq;
    assert bp[0] == p.biases[i][j] && bq[0] == q.biases[i][j];
    assert bp[1..] == NodeWeights(sizes, L, i, p.weights[i], j);
    assert bq[1..] == NodeWeights(sizes, L, i, q.weights[i], j);
  }

  /**
   * Two parameter sets with the same image agree on every bias and every
   * in-shape weight: the image loses nothing the network reads.
   */
  lemma SerialisedInjective(sizes: seq<nat>, L: nat, p: Params, q: Params)
    requires Shaped(sizes, L, p) && Shaped(sizes, L, q)
    requires Serialised(sizes, L, p) == Serialised(sizes, L, q)
    ensures p.biases == q.biases
    ensures forall l: nat, c: nat :: InShape(sizes, L, l, c) ==> p.weights[l][c] == q.weights[l][c]
  {
    forall i | 0 <= i < |sizes|
      ensures p.biases[i] == q.biases[i]
    {
      forall j | 0 <= j < sizes[i]
        ensures p.biases[i][j] == q.biases[i][j]
      {
        SameNode(sizes, L, p, q, i, j);
      }
    }
    forall l: nat, c: nat | InShape(sizes, L, l, c)
      ensures p.weights[l][c] == q.weights[l][c]
    {
      CellOf(L, c);
      SameWeight(sizes, L, p, q, l, c % L, c / L);
    }
  }

  /** Same image, same weight on every connection. */
  lemma SameWeight(sizes: seq<nat>, L: nat, p: Params, q: Params, l: nat, to: nat, from: nat)
    requires Shaped(sizes, L, p) && Shaped(sizes, L, q) && 1 <= l < |sizes| && to < sizes[l] && from < sizes[l - 1]
    requires Serialised(sizes, L, p) == Serialised(sizes, L, q)
    ensures to < L && from < L
    ensures Weight(L, p.weights[l], to, from) == Weight(L, q.weights[l], to, from)
  {
    SameNode(sizes, L, p, q, l, to);
    assert NodeWeights(sizes, L, l, p.weights[l], to)[from] == Weight(L, p.weights[l], to, from);
    assert NodeWeights(sizes, L, l, q.weights[l], to)[from] == Weight(L, q.weights[l], to, from);
  }

  /** q has p's weights in every cell outside the network's shape. */
  ghost predicate SamePadding(sizes: seq<nat>, L: nat, p: Params, q: Params)
    requires Shaped(sizes, L, p) && Shaped(sizes, L, q)
  {
    forall l, c :: 0 <= l < |sizes| && 0 <= c < L * L && !InShape(sizes, L, l, c) ==> q.weights[l][c] == p.weights[l][c]
  }

  /**
   * Save followed by load restores the network exactly: load reproduces the
   * image, so biases and in-shape weights come back (SerialisedInjective),
   * and it never writes the cells outside the shape.
   */
  lemma SaveLoadRoundTrip(sizes: seq<nat>, L: nat, p: Params, q: Params)
    requires Shaped(sizes, L, p) && Shaped(sizes, L, q)
    requires Serialised(sizes, L, q) == Serialised(sizes, L, p) && SamePadding(sizes, L, p, q)
    ensures q == p
  {
    SerialisedInjective(sizes, L, p, q);
    forall l | 0 <= l < |sizes|
      ensures q.weights[l] == p.weights[l]
    {
      assert forall c :: 0 <= c < L * L ==> q.weights[l][c] == p.weights[l][c];
    }
  }

  // What load changes when it fills one node.

  /** Cell c of layer i's buffer holds an incoming weight of node j. */
  predicate NodeCell(sizes: seq<nat>, L: nat, i: nat, j: nat, c: nat)
  {
    1 <= i < |sizes| && 0 < L && c % L == j && c / L < sizes[i - 1]
  }

  /** (b2, w2) is layer i's (b, w) with at most node j's bias and incoming weights changed. */
  predicate RowUpdate(sizes: seq<nat>, L: nat, i: nat, j: nat, b: seq<real>, w: seq<real>, b2: seq<real>, w2: seq<real>)
    requires Row(sizes, L, i, b, w) && Row(sizes, L, i, b2, w2)
  {
    && (forall n :: 0 <= n < sizes[i] && n != j ==> b2[n] == b[n])
    && (forall c :: 0 <= c < L * L && !NodeCell(sizes, L, i, j, c) ==> w2[c] == w[c])
  }

  /** Writing one of node j's cells keeps every cell that is not node j's. */
  lemma KeepOtherCells(sizes: seq<nat>, L: nat, i: nat, j: nat, w: seq<real>, w2: seq<real>, c: nat, v: real)
    requires |w| == L * L && |w2| == L * L && c < L * L && NodeCell(sizes, L, i, j, c)
    requires forall x :: 0 <= x < L * L && !NodeCell(sizes, L, i, j, x) ==> w2[x] == w[x]
    ensures forall x :: 0 <= x < L * L && !NodeCell(sizes, L, i, j, x) ==> w2[c := v][x] == w[x]
  {
  }

  /** Filling node j leaves the blocks of the nodes before it alone. */
  lemma RowUpdateKeepsEarlierNodes(sizes: seq<nat>, L: nat, i: nat, j: nat, b: seq<real>, w: seq<real>, b2: seq<real>, w2: seq<real>)
    requires Row(sizes, L, i, b, w) && Row(sizes, L, i, b2, w2) && j < sizes[i]
    requires RowUpdate(sizes, L, i, j, b, w, b2, w2)
    ensures LayerBlocks(sizes, L, i, b, w)[..j] == LayerBlocks(sizes, L, i, b2, w2)[..j]
  {
    forall n | 0 <= n < j
      ensures NodeBlock(sizes, L, i, b, w, n) == NodeBlock(sizes, L, i, b2, w2, n)
    {
      if i >= 1 {
        forall k | 0 <= k < sizes[i - 1]
          ensures Weight(L, w, n, k) == Weight(L, w2, n, k)
        {
          CellBound(L, n, k);
          CellDecode(L, n, k);
        }
        assert NodeWeights(sizes, L, i, w, n) == NodeWeights(sizes, L, i, w2, n);
      }
    }
  }

  /**
   * One step of load's node loop: with the blocks of nodes 0..j-1 read from
   * buf[g..next] and node j's block from the stride after it, the blocks of
   * nodes 0..j are the whole stretch.
   */
  lemma LoadStep(sizes: seq<nat>, L: nat, i: nat, j: nat, b: seq<real>, w: seq<real>, b2: seq<real>, w2: seq<real>,
                 buf: seq<real>, g: nat, next: nat)
    requires Row(sizes, L, i, b, w) && Row(sizes, L, i, b2, w2) && j < sizes[i]
    requires RowUpdate(sizes, L, i, j, b, w, b2, w2)
    requires g <= next && next + Stride(sizes, i) <= |buf|
    requires Concat(LayerBlocks(sizes, L, i, b, w)[..j]) == buf[g .. next]
    requires NodeBlock(sizes, L, i, b2, w2, j) == buf[next .. next + Stride(sizes, i)]
    ensures Concat(LayerBlocks(sizes, L, i, b2, w2)[..j + 1]) == buf[g .. next + Stride(sizes, i)]
  {
    var blocks2 := LayerBlocks(sizes, L, i, b2, w2);
    RowUpdateKeepsEarlierNodes(sizes, L, i, j, b, w, b2, w2);
    ConcatSlices(blocks2, buf, g, next, j);
  }

  /** Blocks 0..j-1 read from buf[g..next] and block j right after them make blocks 0..j. */
  lemma ConcatSlices<T>(bs: seq<seq<T>>, buf: seq<T>, g: nat, next: nat, j: nat)
    requires j < |bs| && g <= next && next + |bs[j]| <= |buf|
    requires Concat(bs[..j]) == buf[g .. next] && bs[j] == buf[next .. next + |bs[j]|]
    ensures Concat(bs[..j + 1]) == buf[g .. next + |bs[j]|]
  {
    ConcatSnoc(bs, j);
    assert buf[g .. next + |bs[j]|] == buf[g .. next] + buf[next .. next + |bs[j]|];
  }

  /** A cell outside layer i's shape belongs to none of its nodes. */
  lemma OutsideShapeNotNode(sizes: seq<nat>, L: nat, i: nat, j: nat, c: nat)
    requires i < |sizes| && j < sizes[i] && c < L * L && !InShape(sizes, L, i, c)
    ensures !NodeCell(sizes, L, i, j, c)
  {
  }

  // ---------------------------------------------------------------------
  // The network
  // ---------------------------------------------------------------------

  function Zeros(n: nat): (r: seq<real>)
    ensures |r| == n && forall k :: 0 <= k < n ==> r[k] == 0.0
  {
    seq(n, _ => 0.0)
  }

  /** One output value per node of each layer. */
  predicate LayersSized(sizes: seq<nat>, rows: seq<seq<real>>)
  {
    |rows| == |sizes| && forall i :: 0 <= i < |sizes| ==> |rows[i]| == sizes[i]
  }

  /** A row of n zeros, written one cell at a time as the source's loops do. */
  method ZeroRow(n: nat) returns (row: seq<real>)
    ensures row == Zeros(n)
  {
    row := [];
    for k := 0 to n
      invariant row == Zeros(k)
    {
      row := row + [0.0];
    }
  }

  // ---------------------------------------------------------------------
  // Weight initialisation (bpnet.hpp:218-240)
  // ---------------------------------------------------------------------

  /**
   * The half-width of the range layer i is drawn from: 0.1 for the input
   * layer, initr when it is positive, and otherwise Bishop's 1/sqrt of the
   * previous layer's size, supplied as bishop(size).
   */
  function InitRange(sizes: seq<nat>, i: nat, initr: real, bishop: nat -> real): real
    requires i < |sizes|
  {
    if i == 0 then 0.1 else if initr > 0.0 then initr else bishop(sizes[i - 1])
  }

  /** Draws consumed by the layers before i: each takes one per node and one per weight cell. */
  function DrawsBefore(sizes: seq<nat>, L: nat, i: nat): nat
    requires i <= |sizes|
  {
    if i == 0 then 0 else DrawsBefore(sizes, L, i - 1) + sizes[i - 1] + Area(L)
  }

  /** Cells of an L*L weight buffer. */
  function Area(L: nat): (a: nat)
    ensures a == L * L
  {
    MulNat(L, L);
    L * L
  }

  lemma MulNat(a: nat, b: nat)
    ensures a * b >= 0
  {
  }

  /** n values drawn from [-r, r] with the draws from index d on. */
  function DrawnRow(draws: nat -> real, d: nat, n: nat, r: real): (row: seq<real>)
    ensures |row| == n
  {
    seq(n, k requires 0 <= k < n => Drand(draws(d + k), -r, r))
  }

  /** Layer i's biases after initWeights: drawn, or zero for the input layer. */
  function InitialBiases(sizes: seq<nat>, L: nat, draws: nat -> real, d0: nat, initr: real, bishop: nat -> real, i: nat): (row: seq<real>)
    requires i < |sizes|
    ensures |row| == sizes[i]
  {
    if i == 0 then Zeros(sizes[0])
    else DrawnRow(draws, d0 + DrawsBefore(sizes, L, i), sizes[i], InitRange(sizes, i, initr, bishop))
  }

  /** Layer i's weight buffer after initWeights: drawn after its biases, or zero for the input layer. */
  function InitialWeights(sizes: seq<nat>, L: nat, draws: nat -> real, d0: nat, initr: real, bishop: nat -> real, i: nat): (row: seq<real>)
    requires i < |sizes|
    ensures |row| == L * L
  {
    if i == 0 then Zeros(Area(L))
    else DrawnRow(draws, d0 + DrawsBefore(sizes, L, i) + sizes[i], Area(L), InitRange(sizes, i, initr, bishop))
  }

  /**
   * The parameters initWeights leaves, the stream being at index d0 when it
   * starts: layer i's biases take the draws from d0 + DrawsBefore(i) on and
   * its L*L weight cells the draws after those; layer 0 is then zeroed.
   */
  function Initialised(sizes: seq<nat>, L: nat, draws: nat -> real, d0: nat, initr: real, bishop: nat -> real): (p: Params)
    requires Fits(sizes, L)
    ensures Shaped(sizes, L, p)
  {
    Params(seq(|sizes|, i requires 0 <= i < |sizes| => InitialBiases(sizes, L, draws, d0, initr, bishop, i)),
           seq(|sizes|, i requires 0 <= i < |sizes| => InitialWeights(sizes, L, draws, d0, initr, bishop, i)))
  }

  /**
   * With draws in [0,1) and non-negative ranges, every initial bias and
   * weight of a non-input layer lies in [-r, r] for its layer's range r,
   * and the input layer is all zeros.
   */
  lemma InitialisedInRange(sizes: seq<nat>, L: nat, draws: nat -> real, d0: nat, initr: real, bishop: nat -> real)
    requires Fits(sizes, L)
    requires forall n :: 0.0 <= draws(n) < 1.0
    requires forall n :: bishop(n) >= 0.0
    ensures var p := Initialised(sizes, L, draws, d0, initr, bishop);
      && (|sizes| > 0 ==> p.biases[0] == Zeros(sizes[0]) && p.weights[0] == Zeros(L * L))
      && (forall i, j :: 1 <= i < |sizes| && 0 <= j < sizes[i] ==>
           -InitRange(sizes, i, initr, bishop) <= p.biases[i][j] <= InitRange(sizes, i, initr, bishop))
      && (forall i, c :: 1 <= i < |sizes| && 0 <= c < L * L ==>
           -InitRange(sizes, i, initr, bishop) <= p.weights[i][c] <= InitRange(sizes, i, initr, bishop))
  {
    var p := Initialised(sizes, L, draws, d0, initr, bishop);
    forall i, j | 1 <= i < |sizes| && 0 <= j < sizes[i]
      ensures -InitRange(sizes, i, initr, bishop) <= p.biases[i][j] <= InitRange(sizes, i, initr, bishop)
    {
      assert p.biases[i] == InitialBiases(sizes, L, draws, d0, initr, bishop, i);
      DrawnRowInRange(draws, d0 + DrawsBefore(sizes, L, i), sizes[i], InitRange(sizes, i, initr, bishop), j);
    }
    forall i, c | 1 <= i < |sizes| && 0 <= c < L * L
      ensures -InitRange(sizes, i, initr, bishop) <= p.weights[i][c] <= InitRange(sizes, i, initr, bishop)
    {
      assert p.weights[i] == InitialWeights(sizes, L, draws, d0, initr, bishop, i);
      DrawnRowInRange(draws, d0 + DrawsBefore(sizes, L, i) + sizes[i], Area(L), InitRange(sizes, i, initr, bishop), c);
    }
  }

  lemma DrawnRowInRange(draws: nat -> real, d: nat, n: nat, r: real, k: nat)
    requires forall m :: 0.0 <= draws(m) < 1.0
    requires r >= 0.0 && k < n
    ensures -r <= DrawnRow(draws, d, n, r)[k] <= r
  {
    assert 0.0 <= draws(d + k) < 1.0;
    assert DrawnRow(draws, d, n, r)[k] == Drand(draws(d + k), -r, r);
  }

  /**
   * No draw is used twice: the draw indices of layer i's cells lie in
   * [DrawsBefore(i), DrawsBefore(i+1)), and those ranges follow each other.
   */
  lemma {:induction false} DrawsBeforeMonotone(sizes: seq<nat>, L: nat, i: nat, k: nat)
    requires i <= k <= |sizes|
    ensures DrawsBefore(sizes, L, i) <= DrawsBefore(sizes, L, k)
    ensures i < k ==> DrawsBefore(sizes, L, i) + sizes[i] + Area(L) <= DrawsBefore(sizes, L, k)
    decreases k
  {
    if i < k {
      DrawsBeforeMonotone(sizes, L, i, k - 1);
    }
  }

  // ---------------------------------------------------------------------
  // The forward pass (bpnet.hpp:321-331)
  // ---------------------------------------------------------------------

  /**
   * Node j of layer i's net input after the first k incoming connections:
   * its bias plus the weighted outputs of nodes 0..k-1 of the layer before,
   * summed in that order.
   */
  function Activation(sizes: seq<nat>, L: nat, i: nat, b: seq<real>, w: seq<real>, prev: seq<real>, j: nat, k: nat): real
    requires Row(sizes, L, i, b, w) && 1 <= i && j < sizes[i] && |prev| == sizes[i - 1] && k <= sizes[i - 1]
  {
    if k == 0 then b[j]
    else Activation(sizes, L, i, b, w, prev, j, k - 1) + Weight(L, w, j, k - 1) * prev[k - 1]
  }

  /** Layer i's outputs given the outputs prev of the layer before. */
  function LayerOutput(sizes: seq<nat>, L: nat, sigma: real -> real, i: nat, b: seq<real>, w: seq<real>, prev: seq<real>): (row: seq<real>)
    requires Row(sizes, L, i, b, w) && 1 <= i && |prev| == sizes[i - 1]
    ensures |row| == sizes[i]
  {
    seq(sizes[i], j requires 0 <= j < sizes[i] => sigma(Activation(sizes, L, i, b, w, prev, j, sizes[i - 1])))
  }

  /**
   * The outputs after update has processed layers 1..n-1, starting from
   * outs: each of those layers is recomputed from the one before it, in
   * order, and every other row is as in outs.
   */
  function Forward(sizes: seq<nat>, L: nat, sigma: real -> real, p: Params, outs: seq<seq<real>>, n: nat): (r: seq<seq<real>>)
    requires Shaped(sizes, L, p) && LayersSized(sizes, outs) && n <= |sizes|
    ensures LayersSized(sizes, r)
    ensures forall l :: 0 <= l < |sizes| && (l == 0 || l >= n) ==> r[l] == outs[l]
  {
    if n <= 1 then outs
    else
      var f := Forward(sizes, L, sigma, p, outs, n - 1);
      f[n - 1 := LayerOutput(sizes, L, sigma, n - 1, p.biases[n - 1], p.weights[n - 1], f[n - 2])]
  }

  /**
   * The forward pass reads nothing but the input layer: two starting states
   * with the same inputs give the same outputs in every layer it computes.
   */
  lemma {:induction false} ForwardReadsInputsOnly(sizes: seq<nat>, L: nat, sigma: real -> real, p: Params, outs: seq<seq<real>>, outs2: seq<seq<real>>, n: nat)
    requires Shaped(sizes, L, p) && LayersSized(sizes, outs) && LayersSized(sizes, outs2) && n <= |sizes|
    requires |sizes| > 0 ==> outs[0] == outs2[0]
    ensures forall l :: 0 <= l < n ==> Forward(sizes, L, sigma, p, outs, n)[l] == Forward(sizes, L, sigma, p, outs2, n)[l]
  {
    if n > 1 {
      ForwardReadsInputsOnly(sizes, L, sigma, p, outs, outs2, n - 1);
    }
  }

  /** Running the forward pass again changes nothing. */
  lemma ForwardIdempotent(sizes: seq<nat>, L: nat, sigma: real -> real, p: Params, outs: seq<seq<real>>)
    requires Shaped(sizes, L, p) && LayersSized(sizes, outs)
    ensures var f := Forward(sizes, L, sigma, p, outs, |sizes|);
      Forward(sizes, L, sigma, p, f, |sizes|) == f
  {
    var n := |sizes|;
    var f := Forward(sizes, L, sigma, p, outs, n);
    ForwardReadsInputsOnly(sizes, L, sigma, p, f, outs, n);
  }

  /**
   * Whatever the layers held before, setting the input x and running the
   * forward pass yields the outputs ExampleOutputs gives for x.
   */
  lemma RunForgetsPreviousOutputs(sizes: seq<nat>, L: nat, sigma: real -> real, p: Params, outs: seq<seq<real>>, x: seq<real>)
    requires Shaped(sizes, L, p) && LayersSized(sizes, outs) && |sizes| > 0 && |x| >= sizes[0]
    ensures Forward(sizes, L, sigma, p, outs[0 := x[..sizes[0]]], |sizes|) == ExampleOutputs(sizes, L, sigma, p, x)
  {
    ForwardReadsInputsOnly(sizes, L, sigma, p, outs[0 := x[..sizes[0]]], ZeroLayers(sizes)[0 := x[..sizes[0]]], |sizes|);
  }

  // ---------------------------------------------------------------------
  // The error terms of calcError (bpnet.hpp:294-319)
  // ---------------------------------------------------------------------

  /** The output layer's error terms o*(1-o)*(o-y) for outputs o and targets y. */
  function OutputDelta(o: seq<real>, y: seq<real>): (d: seq<real>)
    requires |y| >= |o|
    ensures |d| == |o|
  {
    seq(|o|, i requires 0 <= i < |o| => o[i] * (1.0 - o[i]) * (o[i] - y[i]))
  }

  /**
   * Sum of the error terms of the first n nodes of layer l+1, each weighted
   * by its connection from node j of layer l (wNext is layer l+1's buffer).
   */
  function BackSum(sizes: seq<nat>, L: nat, l: nat, wNext: seq<real>, dNext: seq<real>, j: nat, n: nat): real
    requires l + 1 < |sizes| && Fits(sizes, L) && |wNext| == L * L && |dNext| == sizes[l + 1]
    requires j < sizes[l] && n <= sizes[l + 1]
  {
    if n == 0 then 0.0
    else BackSum(sizes, L, l, wNext, dNext, j, n - 1) + dNext[n - 1] * Weight(L, wNext, n - 1, j)
  }

  /** A hidden layer's error terms from the next layer's terms dNext and its own outputs o. */
  function HiddenDelta(sizes: seq<nat>, L: nat, l: nat, wNext: seq<real>, dNext: seq<real>, o: seq<real>): (d: seq<real>)
    requires l + 1 < |sizes| && Fits(sizes, L) && |wNext| == L * L && |dNext| == sizes[l + 1] && |o| == sizes[l]
    ensures |d| == sizes[l]
  {
    seq(sizes[l], j requires 0 <= j < sizes[l] => BackSum(sizes, L, l, wNext, dNext, j, sizes[l + 1]) * o[j] * (1.0 - o[j]))
  }

  /**
   * Back-propagation's error terms of layer l, for outputs outs and targets
   * y: the output layer's from the targets, every other layer's from the
   * terms of the layer after it.
   */
  function Delta(sizes: seq<nat>, L: nat, p: Params, outs: seq<seq<real>>, y: seq<real>, l: nat): (d: seq<real>)
    requires Shaped(sizes, L, p) && LayersSized(sizes, outs) && l < |sizes| && |y| >= sizes[|sizes| - 1]
    ensures |d| == sizes[l]
    decreases |sizes| - l
  {
    if l == |sizes| - 1 then OutputDelta(outs[l], y)
    else HiddenDelta(sizes, L, l, p.weights[l + 1], Delta(sizes, L, p, outs, y, l + 1), outs[l])
  }

  /**
   * The errors calcError should leave (the corrected order): the terms of
   * the output layer and of every layer from 1 on; the input layer's row,
   * unless it is the output layer, is not written.
   */
  function Backpropagated(sizes: seq<nat>, L: nat, p: Params, outs: seq<seq<real>>, y: seq<real>, errs: seq<seq<real>>): (r: seq<seq<real>>)
    requires Shaped(sizes, L, p) && LayersSized(sizes, outs) && LayersSized(sizes, errs) && |sizes| > 0 && |y| >= sizes[|sizes| - 1]
    ensures LayersSized(sizes, r)
  {
    seq(|sizes|, l requires 0 <= l < |sizes| =>
      if l >= 1 || l == |sizes| - 1 then Delta(sizes, L, p, outs, y, l) else errs[l])
  }

  /**
   * The errors calcError leaves as written: its hidden-layer loop runs
   * upwards from layer 1, so layer l reads layer l+1's row before that row
   * is recomputed. Only the layer just below the output layer sees fresh
   * terms; the others use whatever errs held before.
   */
  function BackpropagatedAsWritten(sizes: seq<nat>, L: nat, p: Params, outs: seq<seq<real>>, y: seq<real>, errs: seq<seq<real>>): (r: seq<seq<real>>)
    requires Shaped(sizes, L, p) && LayersSized(sizes, outs) && LayersSized(sizes, errs) && |sizes| > 0 && |y| >= sizes[|sizes| - 1]
    ensures LayersSized(sizes, r)
  {
    var ol := |sizes| - 1;
    seq(|sizes|, l requires 0 <= l < |sizes| =>
      if l == ol then OutputDelta(outs[ol], y)
      else if l >= 1 then HiddenDelta(sizes, L, l, p.weights[l + 1], if l + 1 == ol then OutputDelta(outs[ol], y) else errs[l + 1], outs[l])
      else errs[l])
  }

  /**
   * The two orders agree for networks of at most three layers, where the
   * only hidden layer sits right below the output layer.
   */
  lemma AsWrittenAgreesUpToThreeLayers(sizes: seq<nat>, L: nat, p: Params, outs: seq<seq<real>>, y: seq<real>, errs: seq<seq<real>>)
    requires Shaped(sizes, L, p) && LayersSized(sizes, outs) && LayersSized(sizes, errs) && 0 < |sizes| <= 3 && |y| >= sizes[|sizes| - 1]
    ensures BackpropagatedAsWritten(sizes, L, p, outs, y, errs) == Backpropagated(sizes, L, p, outs, y, errs)
  {
    var a := BackpropagatedAsWritten(sizes, L, p, outs, y, errs);
    var b := Backpropagated(sizes, L, p, outs, y, errs);
    forall l | 0 <= l < |sizes|
      ensures a[l] == b[l]
    {
      if l >= 1 && l < |sizes| - 1 {
        assert Delta(sizes, L, p, outs, y, l + 1) == OutputDelta(outs[l + 1], y);
      }
    }
  }

  /**
   * With four layers of one node each, unit weights, every output 0.5 and
   * target 0, the corrected order gives layer 1 the term 1/128, while the
   * order as written reads the stale 0 left in layer 2's row and gives 0.
   */
  lemma AsWrittenStaleForFourLayers()
    ensures var sizes := [1, 1, 1, 1];
      var p := Params([[0.0], [0.0], [0.0], [0.0]], [[1.0], [1.0], [1.0], [1.0]]);
      var outs := [[0.5], [0.5], [0.5], [0.5]];
      var errs := [[0.0], [0.0], [0.0], [0.0]];
      && Shaped(sizes, 1, p) && LayersSized(sizes, outs) && LayersSized(sizes, errs)
      && Backpropagated(sizes, 1, p, outs, [0.0], errs)[1] == [0.0078125]
      && BackpropagatedAsWritten(sizes, 1, p, outs, [0.0], errs)[1] == [0.0]
  {
    var sizes := [1, 1, 1, 1];
    var p := Params([[0.0], [0.0], [0.0], [0.0]], [[1.0], [1.0], [1.0], [1.0]]);
    var outs := [[0.5], [0.5], [0.5], [0.5]];
    var errs := [[0.0], [0.0], [0.0], [0.0]];
    var y := [0.0];
    assert Weight(1, [1.0], 0, 0) == 1.0;
    var d3 := Delta(sizes, 1, p, outs, y, 3);
    assert d3 == [0.125];
    assert BackSum(sizes, 1, 2, [1.0], d3, 0, 1) == 0.125;
    var d2 := Delta(sizes, 1, p, outs, y, 2);
    assert d2 == [0.03125];
    assert BackSum(sizes, 1, 1, [1.0], d2, 0, 1) == 0.03125;
    assert Delta(sizes, 1, p, outs, y, 1) == [0.0078125];
    assert BackSum(sizes, 1, 1, [1.0], [0.0], 0, 1) == 0.0;
  }

  // ---------------------------------------------------------------------
  // The batch step of trainBatch (bpnet.hpp:333-387)
  // ---------------------------------------------------------------------

  function ZeroLayers(sizes: seq<nat>): (r: seq<seq<real>>)
    ensures LayersSized(sizes, r)
  {
    seq(|sizes|, l requires 0 <= l < |sizes| => Zeros(sizes[l]))
  }

  /** Gradient accumulators with every bias and every cell zero, as trainBatch starts them. */
  function ZeroParams(sizes: seq<nat>, L: nat): (g: Params)
    requires Fits(sizes, L)
    ensures Shaped(sizes, L, g)
  {
    var ws := seq(|sizes|, l requires 0 <= l < |sizes| => Zeros(L * L));
    assert forall l :: 0 <= l < |sizes| ==> ws[l] == Zeros(L * L);
    Params(ZeroLayers(sizes), ws)
  }

  /** The outputs of every layer when the network runs on input x (its first sizes[0] values). */
  function ExampleOutputs(sizes: seq<nat>, L: nat, sigma: real -> real, p: Params, x: seq<real>): (r: seq<seq<real>>)
    requires Shaped(sizes, L, p) && |sizes| > 0 && |x| >= sizes[0]
    ensures LayersSized(sizes, r)
  {
    Forward(sizes, L, sigma, p, ZeroLayers(sizes)[0 := x[..sizes[0]]], |sizes|)
  }

  /** Inputs xs and targets ys of a batch, wide enough for the network's input and output layers. */
  predicate Batch(sizes: seq<nat>, xs: seq<seq<real>>, ys: seq<seq<real>>)
  {
    |xs| == |ys| && |sizes| > 0
    && forall e :: 0 <= e < |xs| ==> |xs[e]| >= sizes[0] && |ys[e]| >= sizes[|sizes| - 1]
  }

  /**
   * What one example leaves behind in calcError: the outputs of every layer,
   * the target, and the error terms of every layer.
   */
  datatype Pass = Pass(outs: seq<seq<real>>, target: seq<real>, deltas: seq<seq<real>>)

  predicate PassSized(sizes: seq<nat>, q: Pass)
  {
    |sizes| > 0 && LayersSized(sizes, q.outs) && LayersSized(sizes, q.deltas) && |q.target| >= sizes[|sizes| - 1]
  }

  predicate PassesSized(sizes: seq<nat>, qs: seq<Pass>)
  {
    forall e :: 0 <= e < |qs| ==> PassSized(sizes, qs[e])
  }

  /**
   * The pass of input x and target y: the outputs the network computes and
   * the error terms of layers 1 on (layer 0's row is not used and left zero).
   */
  function ExamplePass(sizes: seq<nat>, L: nat, sigma: real -> real, p: Params, x: seq<real>, y: seq<real>): (r: Pass)
    requires Shaped(sizes, L, p) && |sizes| > 0 && |x| >= sizes[0] && |y| >= sizes[|sizes| - 1]
    ensures PassSized(sizes, r) && r.target == y
    ensures r.outs == ExampleOutputs(sizes, L, sigma, p, x)
    ensures forall l :: 1 <= l < |sizes| ==> r.deltas[l] == Delta(sizes, L, p, r.outs, y, l)
  {
    var o := ExampleOutputs(sizes, L, sigma, p, x);
    Pass(o, y, Backpropagated(sizes, L, p, o, y, ZeroLayers(sizes)))
  }

  /** qs holds the pass of each example of the batch xs, ys, in order. */
  ghost predicate PassesOf(sizes: seq<nat>, L: nat, sigma: real -> real, p: Params, xs: seq<seq<real>>, ys: seq<seq<real>>, qs: seq<Pass>)
    requires Shaped(sizes, L, p)
  {
    Batch(sizes, xs, ys) && |qs| == |xs|
    && forall e {:trigger ExamplePass(sizes, L, sigma, p, xs[e], ys[e])} :: 0 <= e < |xs| ==> qs[e] == ExamplePass(sizes, L, sigma, p, xs[e], ys[e])
  }

  /** The passes of a whole batch, in order. */
  function Passes(sizes: seq<nat>, L: nat, sigma: real -> real, p: Params, xs: seq<seq<real>>, ys: seq<seq<real>>): (r: seq<Pass>)
    requires Shaped(sizes, L, p) && Batch(sizes, xs, ys)
    ensures PassesSized(sizes, r) && PassesOf(sizes, L, sigma, p, xs, ys, r)
  {
    seq(|xs|, e requires 0 <= e < |xs| => ExamplePass(sizes, L, sigma, p, xs[e], ys[e]))
  }

  /** Sum over the first n passes of the gradient term of the weight from node j of layer l-1 to node i of layer l. */
  function GradWeight(sizes: seq<nat>, qs: seq<Pass>, n: nat, l: nat, i: nat, j: nat): real
    requires PassesSized(sizes, qs) && n <= |qs|
    requires 1 <= l < |sizes| && i < sizes[l] && j < sizes[l - 1]
  {
    if n == 0 then 0.0
    else GradWeight(sizes, qs, n - 1, l, i, j) + qs[n - 1].deltas[l][i] * qs[n - 1].outs[l - 1][j]
  }

  /** Sum over the first n passes of node i of layer l's error term. */
  function GradBias(sizes: seq<nat>, qs: seq<Pass>, n: nat, l: nat, i: nat): real
    requires PassesSized(sizes, qs) && n <= |qs|
    requires 1 <= l < |sizes| && i < sizes[l]
  {
    if n == 0 then 0.0 else GradBias(sizes, qs, n - 1, l, i) + qs[n - 1].deltas[l][i]
  }

  /** Sum of the squared differences of the first k outputs and targets. */
  function SquaredError(o: seq<real>, y: seq<real>, k: nat): real
    requires k <= |o| && k <= |y|
  {
    if k == 0 then 0.0 else SquaredError(o, y, k - 1) + (o[k - 1] - y[k - 1]) * (o[k - 1] - y[k - 1])
  }

  /** Sum over the first n passes of the output layer's squared error. */
  function BatchError(sizes: seq<nat>, qs: seq<Pass>, n: nat): real
    requires PassesSized(sizes, qs) && n <= |qs|
  {
    if n == 0 then 0.0
    else
      var ol := |sizes| - 1;
      BatchError(sizes, qs, n - 1) + SquaredError(qs[n - 1].outs[ol], qs[n - 1].target, sizes[ol])
  }

  /** The squared error is never negative, so neither is a batch's. */
  lemma {:induction false} BatchErrorNonnegative(sizes: seq<nat>, qs: seq<Pass>, n: nat)
    requires PassesSized(sizes, qs) && n <= |qs|
    ensures BatchError(sizes, qs, n) >= 0.0
  {
    if n > 0 {
      BatchErrorNonnegative(sizes, qs, n - 1);
      var ol := |sizes| - 1;
      SquaredErrorNonnegative(qs[n - 1].outs[ol], qs[n - 1].target, sizes[ol]);
    }
  }

  lemma {:induction false} SquaredErrorNonnegative(o: seq<real>, y: seq<real>, k: nat)
    requires k <= |o| && k <= |y|
    ensures SquaredError(o, y, k) >= 0.0
  {
    if k > 0 {
      SquaredErrorNonnegative(o, y, k - 1);
      MulNonnegSquare(o[k - 1] - y[k - 1]);
    }
  }

  lemma MulNonnegSquare(a: real)
    ensures a * a >= 0.0
  {
    if a < 0.0 {
      MulNonneg(-a, -a);
    } else {
      MulNonneg(a, a);
    }
  }

  /**
   * g holds the gradient sums of the first n passes: every in-shape cell
   * and every bias of layers 1 on its sum, every other cell and the input
   * layer's biases zero.
   */
  predicate GradientsOf(sizes: seq<nat>, L: nat, qs: seq<Pass>, n: nat, g: Params)
    requires |sizes| > 0 && PassesSized(sizes, qs) && n <= |qs|
  {
    && Shaped(sizes, L, g)
    && (forall l, i, j :: 1 <= l < |sizes| && 0 <= i < sizes[l] && 0 <= j < sizes[l - 1] ==>
         Weight(L, g.weights[l], i, j) == GradWeight(sizes, qs, n, l, i, j))
    && (forall l, i :: 1 <= l < |sizes| && 0 <= i < sizes[l] ==> g.biases[l][i] == GradBias(sizes, qs, n, l, i))
    && (forall l, c :: 0 <= l < |sizes| && 0 <= c < L * L && !InShape(sizes, L, l, c) ==> g.weights[l][c] == 0.0)
    && (forall i :: 0 <= i < sizes[0] ==> g.biases[0][i] == 0.0)
  }

  /** The zeroed accumulators are the gradient sums of no passes. */
  lemma ZeroParamsEmptyBatch(sizes: seq<nat>, L: nat, qs: seq<Pass>)
    requires Fits(sizes, L) && |sizes| > 0 && PassesSized(sizes, qs)
    ensures GradientsOf(sizes, L, qs, 0, ZeroParams(sizes, L))
  {
    var g := ZeroParams(sizes, L);
    forall l, c | 0 <= l < |sizes| && 0 <= c < L * L
      ensures g.weights[l][c] == 0.0
    {
      assert g.weights[l] == Zeros(L * L);
    }
    forall l, i, j | 1 <= l < |sizes| && 0 <= i < sizes[l] && 0 <= j < sizes[l - 1]
      ensures Weight(L, g.weights[l], i, j) == 0.0
    {
      CellBound(L, i, j);
    }
    forall l, i | 0 <= l < |sizes| && 0 <= i < sizes[l]
      ensures g.biases[l][i] == 0.0
    {
      assert g.biases[l] == Zeros(sizes[l]);
    }
  }

  /**
   * g2 is g with one example's terms added: outs are its layer outputs and
   * d its error terms; only in-shape cells and biases of layers 1 on change.
   */
  predicate AddedExample(sizes: seq<nat>, L: nat, g: Params, g2: Params, outs: seq<seq<real>>, d: seq<seq<real>>)
    requires Shaped(sizes, L, g) && LayersSized(sizes, outs) && LayersSized(sizes, d)
  {
    && Shaped(sizes, L, g2)
    && (forall l, i, j :: 1 <= l < |sizes| && 0 <= i < sizes[l] && 0 <= j < sizes[l - 1] ==>
         Weight(L, g2.weights[l], i, j) == Weight(L, g.weights[l], i, j) + d[l][i] * outs[l - 1][j])
    && (forall l, i :: 1 <= l < |sizes| && 0 <= i < sizes[l] ==> g2.biases[l][i] == g.biases[l][i] + d[l][i])
    && (forall l, c :: 0 <= l < |sizes| && 0 <= c < L * L && !InShape(sizes, L, l, c) ==> g2.weights[l][c] == g.weights[l][c])
    && (|sizes| > 0 ==> g2.biases[0] == g.biases[0])
  }

  /** The accumulation step reads the error terms of layers 1 on only. */
  lemma AddedExampleSameTerms(sizes: seq<nat>, L: nat, g: Params, g2: Params, outs: seq<seq<real>>, d: seq<seq<real>>, e: seq<seq<real>>)
    requires Shaped(sizes, L, g) && LayersSized(sizes, outs) && LayersSized(sizes, d) && LayersSized(sizes, e)
    requires forall l :: 1 <= l < |sizes| ==> d[l] == e[l]
    requires AddedExample(sizes, L, g, g2, outs, d)
    ensures AddedExample(sizes, L, g, g2, outs, e)
  {
    forall l, i, j | 1 <= l < |sizes| && 0 <= i < sizes[l] && 0 <= j < sizes[l - 1]
      ensures Weight(L, g2.weights[l], i, j) == Weight(L, g.weights[l], i, j) + e[l][i] * outs[l - 1][j]
    {
      SameTermAdded(Weight(L, g2.weights[l], i, j), Weight(L, g.weights[l], i, j), d[l][i], e[l][i], outs[l - 1][j]);
    }
    forall l, i | 1 <= l < |sizes| && 0 <= i < sizes[l]
      ensures g2.biases[l][i] == g.biases[l][i] + e[l][i]
    {
      assert d[l][i] == e[l][i];
    }
  }

  lemma SameTermAdded(sum: real, prev: real, a: real, b: real, c: real)
    requires sum == prev + a * c && a == b
    ensures sum == prev + b * c
  {
  }

  /** Adding pass n's terms to the sums of n passes gives the sums of n+1. */
  lemma GradientsStep(sizes: seq<nat>, L: nat, qs: seq<Pass>, n: nat, g: Params, g2: Params)
    requires |sizes| > 0 && PassesSized(sizes, qs) && n < |qs|
    requires GradientsOf(sizes, L, qs, n, g)
    requires AddedExample(sizes, L, g, g2, qs[n].outs, qs[n].deltas)
    ensures GradientsOf(sizes, L, qs, n + 1, g2)
  {
    GradientsStepCells(sizes, L, qs, n, g, g2);
    GradientsStepBiases(sizes, L, qs, n, g, g2);
  }

  /**
   * One accumulator cell after pass n: the sums of n passes plus pass n's
   * term give the sums of n+1.
   */
  lemma GradWeightStep(sizes: seq<nat>, qs: seq<Pass>, n: nat, l: nat, i: nat, j: nat, w: real, w2: real)
    requires PassesSized(sizes, qs) && n < |qs|
    requires 1 <= l < |sizes| && i < sizes[l] && j < sizes[l - 1]
    requires w == GradWeight(sizes, qs, n, l, i, j) && w2 == w + qs[n].deltas[l][i] * qs[n].outs[l - 1][j]
    ensures w2 == GradWeight(sizes, qs, n + 1, l, i, j)
  {
  }

  lemma GradientsStepCells(sizes: seq<nat>, L: nat, qs: seq<Pass>, n: nat, g: Params, g2: Params)
    requires |sizes| > 0 && PassesSized(sizes, qs) && n < |qs|
    requires GradientsOf(sizes, L, qs, n, g)
    requires AddedExample(sizes, L, g, g2, qs[n].outs, qs[n].deltas)
    ensures forall l, i, j :: 1 <= l < |sizes| && 0 <= i < sizes[l] && 0 <= j < sizes[l - 1] ==>
      Weight(L, g2.weights[l], i, j) == GradWeight(sizes, qs, n + 1, l, i, j)
  {
    forall l, i, j | 1 <= l < |sizes| && 0 <= i < sizes[l] && 0 <= j < sizes[l - 1]
      ensures Weight(L, g2.weights[l], i, j) == GradWeight(sizes, qs, n + 1, l, i, j)
    {
      GradWeightStep(sizes, qs, n, l, i, j, Weight(L, g.weights[l], i, j), Weight(L, g2.weights[l], i, j));
    }
  }

  lemma GradientsStepBiases(sizes: seq<nat>, L: nat, qs: seq<Pass>, n: nat, g: Params, g2: Params)
    requires |sizes| > 0 && PassesSized(sizes, qs) && n < |qs|
    requires GradientsOf(sizes, L, qs, n, g)
    requires AddedExample(sizes, L, g, g2, qs[n].outs, qs[n].deltas)
    ensures forall l, i :: 1 <= l < |sizes| && 0 <= i < sizes[l] ==> g2.biases[l][i] == GradBias(sizes, qs, n + 1, l, i)
  {
  }

  /**
   * p2 is p after the gradient step with learning rate eta and factor 1/num:
   * each in-shape weight and each bias of layers 1 on moves by
   * -eta*gradient*factor; input-layer biases and all other cells keep their values.
   */
  predicate Stepped(sizes: seq<nat>, L: nat, p: Params, g: Params, eta: real, factor: real, p2: Params)
    requires Shaped(sizes, L, p) && Shaped(sizes, L, g)
  {
    && Shaped(sizes, L, p2)
    && (forall l, i, j :: 1 <= l < |sizes| && 0 <= i < sizes[l] && 0 <= j < sizes[l - 1] ==>
         Weight(L, p2.weights[l], i, j) == Weight(L, p.weights[l], i, j) - eta * Weight(L, g.weights[l], i, j) * factor)
    && (forall l, i :: 1 <= l < |sizes| && 0 <= i < sizes[l] ==> p2.biases[l][i] == p.biases[l][i] - eta * g.biases[l][i] * factor)
    && (forall l, c :: 0 <= l < |sizes| && 0 <= c < L * L && !InShape(sizes, L, l, c) ==> p2.weights[l][c] == p.weights[l][c])
    && (|sizes| > 0 ==> p2.biases[0] == p.biases[0])
  }

  /**
   * The step determines the new parameters completely: any two results of
   * the same step are equal.
   */
  lemma SteppedUnique(sizes: seq<nat>, L: nat, p: Params, g: Params, eta: real, factor: real, p2: Params, p3: Params)
    requires Shaped(sizes, L, p) && Shaped(sizes, L, g)
    requires Stepped(sizes, L, p, g, eta, factor, p2) && Stepped(sizes, L, p, g, eta, factor, p3)
    ensures p2 == p3
  {
    forall l | 0 <= l < |sizes|
      ensures p2.weights[l] == p3.weights[l] && p2.biases[l] == p3.biases[l]
    {
      forall c | 0 <= c < L * L
        ensures p2.weights[l][c] == p3.weights[l][c]
      {
        if InShape(sizes, L, l, c) {
          CellOf(L, c);
          assert Weight(L, p2.weights[l], c % L, c / L) == Weight(L, p3.weights[l], c % L, c / L);
        }
      }
      if l >= 1 {
        assert forall i :: 0 <= i < sizes[l] ==> p2.biases[l][i] == p3.biases[l][i];
      }
    }
  }

  /** With every gradient zero the step changes nothing. */
  lemma ZeroStepKeeps(sizes: seq<nat>, L: nat, p: Params, eta: real, factor: real, p2: Params)
    requires Shaped(sizes, L, p) && Fits(sizes, L)
    requires Stepped(sizes, L, p, ZeroParams(sizes, L), eta, factor, p2)
    ensures p2 == p
  {
    var g := ZeroParams(sizes, L);
    forall l, i, j | 1 <= l < |sizes| && 0 <= i < sizes[l] && 0 <= j < sizes[l - 1]
      ensures Weight(L, p.weights[l], i, j) - eta * Weight(L, g.weights[l], i, j) * factor == Weight(L, p.weights[l], i, j)
    {
      CellBound(L, i, j);
      assert g.weights[l] == Zeros(L * L);
    }
    forall l, i | 1 <= l < |sizes| && 0 <= i < sizes[l]
      ensures p.biases[l][i] - eta * g.biases[l][i] * factor == p.biases[l][i]
    {
      assert g.biases[l] == Zeros(sizes[l]);
    }
    assert Stepped(sizes, L, p, g, eta, factor, p);
    SteppedUnique(sizes, L, p, g, eta, factor, p2, p);
  }

  // The two triple loops of trainBatch (bpnet.hpp:355-361 and 374-384) have
  // the same shape: for every layer from 1, every node i and every node j
  // of the layer before, one term goes onto weight (i, j) and then one onto
  // bias i. The methods below do that for given terms.

  /** w2 is w with t[j] added to the weight into node i from node j, for each j < |t|. */
  predicate NodeAdded(L: nat, i: nat, w: seq<real>, t: seq<real>, w2: seq<real>)
    requires i < L && |t| <= L && |w| == L * L
  {
    && |w2| == L * L
    && (forall j :: 0 <= j < |t| ==> Weight(L, w2, i, j) == Weight(L, w, i, j) + t[j])
    && (forall c :: 0 <= c < L * L && !(c % L == i && c / L < |t|) ==> w2[c] == w[c])
  }

  method AddToNode(L: nat, i: nat, w: seq<real>, t: seq<real>) returns (w2: seq<real>)
    requires i < L && |t| <= L && |w| == L * L
    ensures NodeAdded(L, i, w, t, w2)
  {
    w2 := w;
    for j := 0 to |t|
      invariant NodeAdded(L, i, w, t[..j], w2)
    {
      CellBound(L, i, j);
      CellDecode(L, i, j);
      var c := Cell(L, i, j);
      var w3 := w2[c := w2[c] + t[j]];
      forall k | 0 <= k < j + 1
        ensures Weight(L, w3, i, k) == Weight(L, w, i, k) + t[..j + 1][k]
      {
        CellBound(L, i, k);
        CellDecode(L, i, k);
      }
      w2 := w3;
    }
    assert t[..|t|] == t;
  }


  /** Terms for layer l: one per bias and, per node, one per node of the layer before. */
  predicate LayerTerms(sizes: seq<nat>, l: nat, bt: seq<real>, wt: seq<seq<real>>)
  {
    1 <= l < |sizes| && |bt| == sizes[l] && |wt| == sizes[l] && forall i :: 0 <= i < sizes[l] ==> |wt[i]| == sizes[l - 1]
  }

  /**
   * (b2, w2) is layer l's (b, w) with the terms of nodes 0..k-1 added: their
   * biases and in-shape cells moved, everything else as it was.
   */
  predicate LayerAdded(sizes: seq<nat>, L: nat, l: nat, b: seq<real>, w: seq<real>, bt: seq<real>, wt: seq<seq<real>>,
                       k: nat, b2: seq<real>, w2: seq<real>)
    requires Row(sizes, L, l, b, w) && LayerTerms(sizes, l, bt, wt) && k <= sizes[l]
  {
    && Row(sizes, L, l, b2, w2)
    && (forall i :: 0 <= i < sizes[l] ==> b2[i] == if i < k then b[i] + bt[i] else b[i])
    && (forall i, j :: 0 <= i < k && 0 <= j < sizes[l - 1] ==> Weight(L, w2, i, j) == Weight(L, w, i, j) + wt[i][j])
    && (forall c :: 0 <= c < L * L && !(c % L < k && c / L < sizes[l - 1]) ==> w2[c] == w[c])
  }

  method AddToLayer(sizes: seq<nat>, L: nat, l: nat, b: seq<real>, w: seq<real>, bt: seq<real>, wt: seq<seq<real>>)
    returns (b2: seq<real>, w2: seq<real>)
    requires Row(sizes, L, l, b, w) && LayerTerms(sizes, l, bt, wt)
    ensures LayerAdded(sizes, L, l, b, w, bt, wt, sizes[l], b2, w2)
  {
    b2, w2 := b, w;
    for i := 0 to sizes[l]
      invariant LayerAdded(sizes, L, l, b, w, bt, wt, i, b2, w2)
    {
      b2, w2 := AddNodeTerms(sizes, L, l, b, w, bt, wt, i, b2, w2);
    }
  }

  /** One pass of the node loop: node i's weight terms, then its bias term. */
  method AddNodeTerms(sizes: seq<nat>, L: nat, l: nat, b: seq<real>, w: seq<real>, bt: seq<real>, wt: seq<seq<real>>,
                      i: nat, b1: seq<real>, w1: seq<real>) returns (b2: seq<real>, w2: seq<real>)
    requires Row(sizes, L, l, b, w) && LayerTerms(sizes, l, bt, wt) && i < sizes[l]
    requires LayerAdded(sizes, L, l, b, w, bt, wt, i, b1, w1)
    ensures LayerAdded(sizes, L, l, b, w, bt, wt, i + 1, b2, w2)
  {
    w2 := AddToNode(L, i, w1, wt[i]);
    b2 := b1[i := b1[i] + bt[i]];
    forall k, j | 0 <= k < i + 1 && 0 <= j < sizes[l - 1]
      ensures Weight(L, w2, k, j) == Weight(L, w, k, j) + wt[k][j]
    {
      CellBound(L, k, j);
      CellDecode(L, k, j);
    }
  }


  /** Terms for every layer from 1 (layer 0's entries are not used). */
  predicate Terms(sizes: seq<nat>, bt: seq<seq<real>>, wt: seq<seq<seq<real>>>)
  {
    |bt| == |sizes| && (forall l :: 1 <= l < |sizes| ==> |bt[l]| == sizes[l]) && WeightTermsShaped(sizes, wt)
  }

  predicate WeightTermsShaped(sizes: seq<nat>, wt: seq<seq<seq<real>>>)
  {
    |wt| == |sizes| && forall l :: 1 <= l < |sizes| ==> |wt[l]| == sizes[l] && forall i :: 0 <= i < sizes[l] ==> |wt[l][i]| == sizes[l - 1]
  }

  /** p2 is p with the terms of layers 1..k-1 added and the other layers as they were. */
  predicate LayersAdded(sizes: seq<nat>, L: nat, p: Params, bt: seq<seq<real>>, wt: seq<seq<seq<real>>>, k: nat, p2: Params)
    requires Shaped(sizes, L, p) && Terms(sizes, bt, wt)
  {
    && Shaped(sizes, L, p2)
    && forall l :: 0 <= l < |sizes| ==>
         if 1 <= l < k then LayerAdded(sizes, L, l, p.biases[l], p.weights[l], bt[l], wt[l], sizes[l], p2.biases[l], p2.weights[l])
         else p2.biases[l] == p.biases[l] && p2.weights[l] == p.weights[l]
  }

  method AddToLayers(sizes: seq<nat>, L: nat, p: Params, bt: seq<seq<real>>, wt: seq<seq<seq<real>>>) returns (p2: Params)
    requires Shaped(sizes, L, p) && Terms(sizes, bt, wt)
    ensures LayersAdded(sizes, L, p, bt, wt, |sizes|, p2)
  {
    p2 := p;
    var l := 1;
    while l < |sizes|
      invariant 1 <= l && (|sizes| > 0 ==> l <= |sizes|)
      invariant LayersAdded(sizes, L, p, bt, wt, l, p2)
    {
      var b, w := AddToLayer(sizes, L, l, p2.biases[l], p2.weights[l], bt[l], wt[l]);
      p2 := Params(p2.biases[l := b], p2.weights[l := w]);
      l := l + 1;
    }
  }


  /** Adding terms never touches a cell outside the shape or the input layer's biases. */
  lemma LayersAddedKeeps(sizes: seq<nat>, L: nat, p: Params, bt: seq<seq<real>>, wt: seq<seq<seq<real>>>, p2: Params)
    requires Shaped(sizes, L, p) && Terms(sizes, bt, wt)
    requires LayersAdded(sizes, L, p, bt, wt, |sizes|, p2)
    ensures Shaped(sizes, L, p2)
    ensures forall l, c :: 0 <= l < |sizes| && 0 <= c < L * L && !InShape(sizes, L, l, c) ==> p2.weights[l][c] == p.weights[l][c]
    ensures |sizes| > 0 ==> p2.biases[0] == p.biases[0]
  {
  }

  /** e times each output of the layer before. */
  function ProductRow(e: real, prev: seq<real>): (r: seq<real>)
    ensures |r| == |prev| && forall j :: 0 <= j < |prev| ==> r[j] == e * prev[j]
  {
    seq(|prev|, j requires 0 <= j < |prev| => e * prev[j])
  }

  /** One product row per error term of a layer. */
  function ProductRows(dl: seq<real>, prev: seq<real>): (r: seq<seq<real>>)
    ensures |r| == |dl| && forall i :: 0 <= i < |dl| ==> r[i] == ProductRow(dl[i], prev)
  {
    seq(|dl|, i requires 0 <= i < |dl| => ProductRow(dl[i], prev))
  }

  /** The weight terms of one example: error term of node i times output of node j of the layer before. */
  function ExampleWeightTerms(sizes: seq<nat>, outs: seq<seq<real>>, d: seq<seq<real>>): (wt: seq<seq<seq<real>>>)
    requires LayersSized(sizes, outs) && LayersSized(sizes, d)
    ensures Terms(sizes, d, wt)
    ensures forall l :: 1 <= l < |sizes| ==> wt[l] == ProductRows(d[l], outs[l - 1])
  {
    var wt := seq(|sizes|, l requires 0 <= l < |sizes| => TermsOfLayer(outs, d, l));
    assert forall l :: 0 <= l < |sizes| ==> wt[l] == TermsOfLayer(outs, d, l);
    ProductTermsShaped(sizes, outs, d, wt);
    wt
  }

  lemma ProductTermsShaped(sizes: seq<nat>, outs: seq<seq<real>>, d: seq<seq<real>>, wt: seq<seq<seq<real>>>)
    requires LayersSized(sizes, outs) && LayersSized(sizes, d) && |wt| == |sizes|
    requires forall l :: 0 <= l < |sizes| ==> wt[l] == TermsOfLayer(outs, d, l)
    ensures Terms(sizes, d, wt)
  {
    forall l | 1 <= l < |sizes|
      ensures |wt[l]| == sizes[l] && forall i :: 0 <= i < sizes[l] ==> |wt[l][i]| == sizes[l - 1]
    {
      var r := ProductRows(d[l], outs[l - 1]);
      assert wt[l] == r;
      assert forall i :: 0 <= i < |r| ==> |r[i]| == |outs[l - 1]|;
    }
  }

  /** Layer l's weight terms; the input layer has none. */
  function TermsOfLayer(outs: seq<seq<real>>, d: seq<seq<real>>, l: nat): seq<seq<real>>
    requires l < |d| && l <= |outs|
  {
    if l == 0 then [] else ProductRows(d[l], outs[l - 1])
  }

  /** Adding an example's terms is exactly the accumulation step. */
  lemma ExampleTermsAdded(sizes: seq<nat>, L: nat, g: Params, g2: Params, outs: seq<seq<real>>, d: seq<seq<real>>)
    requires Shaped(sizes, L, g) && LayersSized(sizes, outs) && LayersSized(sizes, d)
    requires LayersAdded(sizes, L, g, d, ExampleWeightTerms(sizes, outs, d), |sizes|, g2)
    ensures AddedExample(sizes, L, g, g2, outs, d)
  {
    LayersAddedKeeps(sizes, L, g, d, ExampleWeightTerms(sizes, outs, d), g2);
    ExampleTermsCells(sizes, L, g, g2, outs, d);
    ExampleTermsBiases(sizes, L, g, g2, outs, d);
  }

  lemma ExampleTermsCells(sizes: seq<nat>, L: nat, g: Params, g2: Params, outs: seq<seq<real>>, d: seq<seq<real>>)
    requires Shaped(sizes, L, g) && LayersSized(sizes, outs) && LayersSized(sizes, d)
    requires LayersAdded(sizes, L, g, d, ExampleWeightTerms(sizes, outs, d), |sizes|, g2)
    ensures forall l, i, j :: 1 <= l < |sizes| && 0 <= i < sizes[l] && 0 <= j < sizes[l - 1] ==>
      Weight(L, g2.weights[l], i, j) == Weight(L, g.weights[l], i, j) + d[l][i] * outs[l - 1][j]
  {
    var wt := ExampleWeightTerms(sizes, outs, d);
    forall l, i, j | 1 <= l < |sizes| && 0 <= i < sizes[l] && 0 <= j < sizes[l - 1]
      ensures Weight(L, g2.weights[l], i, j) == Weight(L, g.weights[l], i, j) + d[l][i] * outs[l - 1][j]
    {
      assert wt[l][i][j] == d[l][i] * outs[l - 1][j];
    }
  }

  lemma ExampleTermsBiases(sizes: seq<nat>, L: nat, g: Params, g2: Params, outs: seq<seq<real>>, d: seq<seq<real>>)
    requires Shaped(sizes, L, g) && LayersSized(sizes, outs) && LayersSized(sizes, d)
    requires LayersAdded(sizes, L, g, d, ExampleWeightTerms(sizes, outs, d), |sizes|, g2)
    ensures forall l, i :: 1 <= l < |sizes| && 0 <= i < sizes[l] ==> g2.biases[l][i] == g.biases[l][i] + d[l][i]
  {
  }

  /** Minus eta times each of node i's weight gradients times factor. */
  function StepRow(L: nat, gw: seq<real>, i: nat, n: nat, eta: real, factor: real): (r: seq<real>)
    requires |gw| == L * L && i < L && n <= L
    ensures |r| == n && forall j :: 0 <= j < n ==> r[j] == -(eta * Weight(L, gw, i, j) * factor)
  {
    seq(n, j requires 0 <= j < n => -(eta * Weight(L, gw, i, j) * factor))
  }

  function StepRows(L: nat, gw: seq<real>, m: nat, n: nat, eta: real, factor: real): (r: seq<seq<real>>)
    requires |gw| == L * L && m <= L && n <= L
    ensures |r| == m && forall i :: 0 <= i < m ==> r[i] == StepRow(L, gw, i, n, eta, factor)
  {
    seq(m, i requires 0 <= i < m => StepRow(L, gw, i, n, eta, factor))
  }

  /** Minus eta times each bias gradient times factor. */
  function StepBiasRow(gb: seq<real>, eta: real, factor: real): (r: seq<real>)
    ensures |r| == |gb| && forall i :: 0 <= i < |gb| ==> r[i] == -(eta * gb[i] * factor)
  {
    seq(|gb|, i requires 0 <= i < |gb| => -(eta * gb[i] * factor))
  }

  /** The step's bias terms, per layer. */
  function StepBiasTerms(sizes: seq<nat>, L: nat, g: Params, eta: real, factor: real): (bt: seq<seq<real>>)
    requires Shaped(sizes, L, g)
    ensures |bt| == |sizes| && forall l :: 0 <= l < |sizes| ==> bt[l] == StepBiasRow(g.biases[l], eta, factor)
  {
    seq(|sizes|, l requires 0 <= l < |sizes| => StepBiasRow(g.biases[l], eta, factor))
  }

  /** The step's weight terms, per layer. */
  function StepWeightTerms(sizes: seq<nat>, L: nat, g: Params, eta: real, factor: real): (wt: seq<seq<seq<real>>>)
    requires Shaped(sizes, L, g)
    ensures WeightTermsShaped(sizes, wt)
    ensures forall l :: 1 <= l < |sizes| ==> wt[l] == StepRows(L, g.weights[l], sizes[l], sizes[l - 1], eta, factor)
  {
    var wt := StepTermsUpTo(sizes, L, g, eta, factor, |sizes|);
    forall l | 1 <= l < |sizes|
      ensures |wt[l]| == sizes[l] && forall i :: 0 <= i < sizes[l] ==> |wt[l][i]| == sizes[l - 1]
    {
      assert sizes[l] <= L && sizes[l - 1] <= L;
      var rows := StepRows(L, g.weights[l], sizes[l], sizes[l - 1], eta, factor);
      assert wt[l] == rows;
      assert forall i :: 0 <= i < sizes[l] ==> rows[i] == StepRow(L, g.weights[l], i, sizes[l - 1], eta, factor);
    }
    wt
  }

  function StepTermsUpTo(sizes: seq<nat>, L: nat, g: Params, eta: real, factor: real, n: nat): (wt: seq<seq<seq<real>>>)
    requires Shaped(sizes, L, g) && n <= |sizes|
    ensures |wt| == n
    ensures forall l :: 1 <= l < n ==> wt[l] == StepRows(L, g.weights[l], sizes[l], sizes[l - 1], eta, factor)
  {
    if n == 0 then []
    else if n == 1 then [[]]
    else StepTermsUpTo(sizes, L, g, eta, factor, n - 1) + [StepRows(L, g.weights[n - 1], sizes[n - 1], sizes[n - 2], eta, factor)]
  }

  /** Adding the step's terms is exactly the gradient step. */
  lemma StepTermsAdded(sizes: seq<nat>, L: nat, p: Params, g: Params, eta: real, factor: real, p2: Params)
    requires Shaped(sizes, L, p) && Shaped(sizes, L, g)
    requires LayersAdded(sizes, L, p, StepBiasTerms(sizes, L, g, eta, factor), StepWeightTerms(sizes, L, g, eta, factor), |sizes|, p2)
    ensures Stepped(sizes, L, p, g, eta, factor, p2)
  {
    LayersAddedKeeps(sizes, L, p, StepBiasTerms(sizes, L, g, eta, factor), StepWeightTerms(sizes, L, g, eta, factor), p2);
    StepTermsCells(sizes, L, p, g, eta, factor, p2);
    StepTermsBiases(sizes, L, p, g, eta, factor, p2);
  }

  lemma StepTermsCells(sizes: seq<nat>, L: nat, p: Params, g: Params, eta: real, factor: real, p2: Params)
    requires Shaped(sizes, L, p) && Shaped(sizes, L, g)
    requires LayersAdded(sizes, L, p, StepBiasTerms(sizes, L, g, eta, factor), StepWeightTerms(sizes, L, g, eta, factor), |sizes|, p2)
    ensures forall l, i, j :: 1 <= l < |sizes| && 0 <= i < sizes[l] && 0 <= j < sizes[l - 1] ==>
      Weight(L, p2.weights[l], i, j) == Weight(L, p.weights[l], i, j) - eta * Weight(L, g.weights[l], i, j) * factor
  {
    var wt := StepWeightTerms(sizes, L, g, eta, factor);
    forall l, i, j | 1 <= l < |sizes| && 0 <= i < sizes[l] && 0 <= j < sizes[l - 1]
      ensures Weight(L, p2.weights[l], i, j) == Weight(L, p.weights[l], i, j) - eta * Weight(L, g.weights[l], i, j) * factor
    {
      assert wt[l][i][j] == -(eta * Weight(L, g.weights[l], i, j) * factor);
    }
  }

  lemma StepTermsBiases(sizes: seq<nat>, L: nat, p: Params, g: Params, eta: real, factor: real, p2: Params)
    requires Shaped(sizes, L, p) && Shaped(sizes, L, g)
    requires LayersAdded(sizes, L, p, StepBiasTerms(sizes, L, g, eta, factor), StepWeightTerms(sizes, L, g, eta, factor), |sizes|, p2)
    ensures forall l, i :: 1 <= l < |sizes| && 0 <= i < sizes[l] ==> p2.biases[l][i] == p.biases[l][i] - eta * g.biases[l][i] * factor
  {
    var bt := StepBiasTerms(sizes, L, g, eta, factor);
    forall l, i | 1 <= l < |sizes| && 0 <= i < sizes[l]
      ensures p2.biases[l][i] == p.biases[l][i] - eta * g.biases[l][i] * factor
    {
      assert bt[l][i] == -(eta * g.biases[l][i] * factor);
    }
  }

  /** The zeroing loop of trainBatch (bpnet.hpp:335-340): every bias and every cell of every layer. */
  method ZeroGradients(sizes: seq<nat>, L: nat) returns (g: Params)
    requires Fits(sizes, L)
    ensures g == ZeroParams(sizes, L)
  {
    var bs: seq<seq<real>> := [];
    var ws: seq<seq<real>> := [];
    for j := 0 to |sizes|
      invariant |bs| == j && |ws| == j
      invariant forall k :: 0 <= k < j ==> bs[k] == Zeros(sizes[k]) && ws[k] == Zeros(L * L)
    {
      var b := ZeroRow(sizes[j]);
      var w := ZeroRow(L * L);
      bs, ws := bs + [b], ws + [w];
    }
    g := Params(bs, ws);
    assert bs == ZeroParams(sizes, L).biases;
    assert ws == ZeroParams(sizes, L).weights;
  }

  /**
   * The accumulation loop of trainBatch (bpnet.hpp:355-361): every weight
   * gradient gains error term times the output it weighs, every bias
   * gradient of layers 1 on gains the error term.
   */
  method AccumulateExample(sizes: seq<nat>, L: nat, g: Params, outs: seq<seq<real>>, d: seq<seq<real>>) returns (g2: Params)
    requires Shaped(sizes, L, g) && LayersSized(sizes, outs) && LayersSized(sizes, d)
    ensures AddedExample(sizes, L, g, g2, outs, d)
  {
    g2 := AddToLayers(sizes, L, g, d, ExampleWeightTerms(sizes, outs, d));
    ExampleTermsAdded(sizes, L, g, g2, outs, d);
  }

  /** The error loop of trainBatch (bpnet.hpp:363-368): adds the squared output errors of one example to total. */
  method AddSquaredErrors(total: real, o: seq<real>, y: seq<real>, n: nat) returns (t: real)
    requires n <= |o| && n <= |y|
    ensures t == total + SquaredError(o, y, n)
  {
    t := total;
    for i := 0 to n
      invariant t == total + SquaredError(o, y, i)
    {
      var e := o[i] - y[i];
      t := t + e * e;
    }
  }
  /**
   * The body of trainBatch's example loop after calcError (bpnet.hpp:355-368):
   * with outs and d holding pass n's outputs and error terms, the gradient
   * sums and the squared-error total of n passes become those of n+1.
   */
  method AccumulatePass(sizes: seq<nat>, L: nat, ghost qs: seq<Pass>, ghost n: nat, g: Params, outs: seq<seq<real>>, d: seq<seq<real>>,
                        y: seq<real>, total: real) returns (g2: Params, total2: real)
    requires |sizes| > 0 && PassesSized(sizes, qs) && n < |qs|
    requires GradientsOf(sizes, L, qs, n, g) && total == BatchError(sizes, qs, n)
    requires outs == qs[n].outs && y == qs[n].target
    requires LayersSized(sizes, d) && forall l :: 1 <= l < |sizes| ==> d[l] == qs[n].deltas[l]
    ensures GradientsOf(sizes, L, qs, n + 1, g2) && total2 == BatchError(sizes, qs, n + 1)
  {
    var ol := |sizes| - 1;
    g2 := AccumulateExample(sizes, L, g, outs, d);
    AddedExampleSameTerms(sizes, L, g, g2, outs, d, qs[n].deltas);
    GradientsStep(sizes, L, qs, n, g, g2);
    total2 := AddSquaredErrors(total, outs[ol], y, sizes[ol]);
  }


  /**
   * The update loop of trainBatch (bpnet.hpp:374-384): each weight and each
   * bias of layers 1 on moves against its gradient by eta*gradient*factor.
   */
  method ApplyGradients(sizes: seq<nat>, L: nat, p: Params, g: Params, eta: real, factor: real) returns (p2: Params)
    requires Shaped(sizes, L, p) && Shaped(sizes, L, g)
    ensures Stepped(sizes, L, p, g, eta, factor, p2)
  {
    p2 := AddToLayers(sizes, L, p, StepBiasTerms(sizes, L, g, eta, factor), StepWeightTerms(sizes, L, g, eta, factor));
    StepTermsAdded(sizes, L, p, g, eta, factor, p2);
  }

  /** trainBatch's factor 1/num, positive for a non-empty batch. */
  function Factor(num: nat): (f: real)
    requires num >= 1
    ensures f > 0.0 && f * (num as real) == 1.0
  {
    1.0 / (num as real)
  }

  /**
   * trainBatch's result: the summed squared output error of the first n
   * passes times the factor 1/n, never negative.
   */
  function MeanError(sizes: seq<nat>, qs: seq<Pass>, n: nat): (e: real)
    requires PassesSized(sizes, qs) && 1 <= n <= |qs|
    ensures e >= 0.0
  {
    BatchErrorNonnegative(sizes, qs, n);
    MulNonneg(BatchError(sizes, qs, n), Factor(n));
    BatchError(sizes, qs, n) * Factor(n)
  }

  /** The running total times the factor is the mean error. */
  lemma MeanOfTotal(sizes: seq<nat>, qs: seq<Pass>, n: nat, total: real, factor: real)
    requires PassesSized(sizes, qs) && 1 <= n <= |qs| && total == BatchError(sizes, qs, n) && factor == Factor(n)
    ensures total * factor == MeanError(sizes, qs, n)
  {
  }

  /**
   * What trainBatch promises for a batch xs, ys of at least one example and
   * the parameters p it starts from: the accumulators g hold the gradient
   * sums of the batch's passes under p; the new parameters p2 are p moved
   * by -rate*gradient/num; outs are the last example's layer outputs; and
   * the result r is the mean squared output error.
   */
  ghost predicate BatchTrained(sizes: seq<nat>, L: nat, sigma: real -> real, p: Params, xs: seq<seq<real>>, ys: seq<seq<real>>,
                               rate: real, g: Params, p2: Params, outs: seq<seq<real>>, r: real)
    requires Shaped(sizes, L, p) && Batch(sizes, xs, ys) && |xs| >= 1
  {
    && GradientsOf(sizes, L, Passes(sizes, L, sigma, p, xs, ys), |xs|, g)
    && Stepped(sizes, L, p, g, rate, Factor(|xs|), p2)
    && r == MeanError(sizes, Passes(sizes, L, sigma, p, xs, ys), |xs|)
    && outs == Passes(sizes, L, sigma, p, xs, ys)[|xs| - 1].outs
  }

  /** The parts trainBatch computes make up BatchTrained. */
  lemma BatchTrainedFrom(sizes: seq<nat>, L: nat, sigma: real -> real, p: Params, xs: seq<seq<real>>, ys: seq<seq<real>>, rate: real,
                         qs: seq<Pass>, g: Params, p2: Params, outs: seq<seq<real>>, r: real)
    requires Shaped(sizes, L, p) && Batch(sizes, xs, ys) && |xs| >= 1 && qs == Passes(sizes, L, sigma, p, xs, ys)
    requires GradientsOf(sizes, L, qs, |xs|, g) && Stepped(sizes, L, p, g, rate, Factor(|xs|), p2)
    requires r == MeanError(sizes, qs, |xs|) && outs == qs[|xs| - 1].outs
    ensures BatchTrained(sizes, L, sigma, p, xs, ys, rate, g, p2, outs, r)
  {
  }

  /**
   * The first loop of init (bpnet.hpp:38-47): a zeroed output row and an
   * error row per layer, and the largest layer count.
   */
  method InitLayers(counts: seq<nat>) returns (outs: seq<seq<real>>, errs: seq<seq<real>>, largest: nat)
    ensures LayersSized(counts, outs) && LayersSized(counts, errs)
    ensures forall i :: 0 <= i < |counts| ==> outs[i] == Zeros(counts[i])
    ensures largest == MaxOf(counts)
  {
    outs, errs, largest := [], [], 0;
    for i := 0 to |counts|
      invariant |outs| == i && forall k :: 0 <= k < i ==> outs[k] == Zeros(counts[k])
      invariant |errs| == i && forall k :: 0 <= k < i ==> |errs[k]| == counts[k]
      invariant largest == MaxOf(counts[..i])
    {
      var n := counts[i];
      var row := ZeroRow(n);
      var err: seq<real> :| |err| == n;
      outs, errs := outs + [row], errs + [err];
      assert counts[..i + 1][..i] == counts[..i];
      if n > largest {
        largest := n;
      }
    }
    assert counts[..|counts|] == counts;
  }

  /**
   * The second loop of init (bpnet.hpp:53-59): per layer, a bias row of the
   * layer's size and an L*L weight buffer, contents as allocated.
   */
  method AllocateLayers(counts: seq<nat>, L: nat) returns (p: Params)
    requires Fits(counts, L)
    ensures Shaped(counts, L, p)
  {
    var ws: seq<seq<real>> := [];
    var bs: seq<seq<real>> := [];
    for i := 0 to |counts|
      invariant |ws| == i && |bs| == i
      invariant forall k :: 0 <= k < i ==> |ws[k]| == L * L && |bs[k]| == counts[k]
    {
      assert |Zeros(L * L)| == L * L && |Zeros(counts[i])| == counts[i];
      var w: seq<real> :| |w| == L * L;
      var b: seq<real> :| |b| == counts[i];
      ws, bs := ws + [w], bs + [b];
    }
    p := Params(bs, ws);
  }

  /**
   * Load's inner loop after k weights of node j in layer i: the first k
   * incoming weights come from buf after the bias at g, and every cell that
   * is not node j's is as in w.
   */
  ghost predicate WeightsRead(sizes: seq<nat>, L: nat, i: nat, j: nat, w: seq<real>, buf: seq<real>, g: nat, k: nat, w2: seq<real>)
  {
    && i < |sizes| && j < sizes[i] && Fits(sizes, L) && |w| == L * L && |w2| == L * L
    && k <= Prev(sizes, i) && g + Stride(sizes, i) <= |buf|
    && (forall c :: 0 <= c < L * L && !NodeCell(sizes, L, i, j, c) ==> w2[c] == w[c])
    && (forall m :: 0 <= m < k ==> Weight(L, w2, j, m) == buf[g + 1 + m])
  }

  /** One step of load's inner loop: weight k of node j is read from buf. */
  method ReadWeight(sizes: seq<nat>, L: nat, i: nat, j: nat, w: seq<real>, buf: seq<real>, g: nat, k: nat, w2: seq<real>)
    returns (w3: seq<real>)
    requires WeightsRead(sizes, L, i, j, w, buf, g, k, w2) && k < Prev(sizes, i)
    ensures WeightsRead(sizes, L, i, j, w, buf, g, k + 1, w3)
  {
    assert i > 0 && sizes[i - 1] <= L && j < L;
    var c := Cell(L, j, k);
    CellBound(L, j, k);
    CellDecode(L, j, k);
    assert NodeCell(sizes, L, i, j, c);
    KeepOtherCells(sizes, L, i, j, w, w2, c, buf[g + 1 + k]);
    w3 := w2[c := buf[g + 1 + k]];
    forall m | 0 <= m <= k
      ensures Weight(L, w3, j, m) == buf[g + 1 + m]
    {
      if m < k {
        CellDecode(L, j, m);
        assert Weight(L, w2, j, m) == buf[g + 1 + m];
      }
    }
  }

  /** A bias and a full set of incoming weights read from buf make up the node's block there. */
  lemma NodeBlockRead(sizes: seq<nat>, L: nat, i: nat, j: nat, b2: seq<real>, w2: seq<real>, buf: seq<real>, g: nat)
    requires Row(sizes, L, i, b2, w2) && j < sizes[i] && g + Stride(sizes, i) <= |buf| && b2[j] == buf[g]
    requires forall m :: 0 <= m < Prev(sizes, i) ==> Weight(L, w2, j, m) == buf[g + 1 + m]
    ensures NodeBlock(sizes, L, i, b2, w2, j) == buf[g .. g + Stride(sizes, i)]
  {
    var ws := NodeWeights(sizes, L, i, w2, j);
    assert ws == buf[g + 1 .. g + Stride(sizes, i)];
  }

  /**
   * The plain network (bpnet.hpp:18-388). The per-layer buffers are sequence
   * fields that the methods reassign; the layer structure and the learning
   * rate never change after construction.
   */
  class BPNet {
    const numLayers: nat
    const layerSizes: seq<nat>
    const largestLayerSize: nat
    /** The learning rate Net keeps (net.hpp:41). */
    const eta: real
    /** The network's drand48 stream (net.hpp:52): draws(n) is the n-th value in [0,1) it yields. */
    const draws: nat -> real
    /** The logistic activation of net.hpp:19-21, whose exp is not modelled. */
    const sigmoid: real -> real
    /** How many values of the stream have been consumed. */
    var drawn: nat
    var biases: seq<seq<real>>
    var weights: seq<seq<real>>
    var outputs: seq<seq<real>>
    var errors: seq<seq<real>>
    var gradAvgsBiases: seq<seq<real>>
    var gradAvgsWeights: seq<seq<real>>

    function Parameters(): Params
      reads this
    {
      Params(biases, weights)
    }

    function Gradients(): Params
      reads this
    {
      Params(gradAvgsBiases, gradAvgsWeights)
    }

    /** Buffers shaped as init allocates them (bpnet.hpp:32-60). */
    ghost predicate Valid()
      reads this
    {
      && numLayers == |layerSizes|
      && largestLayerSize == MaxOf(layerSizes)
      && Shaped(layerSizes, largestLayerSize, Parameters())
      && Shaped(layerSizes, largestLayerSize, Gradients())
      && LayersSized(layerSizes, outputs)
      && LayersSized(layerSizes, errors)
    }

    /**
     * BPNet(nlayers, layerCounts) and init (bpnet.hpp:32-71): records the
     * layer sizes and the largest of them, zeroes the outputs and allocates a
     * largest*largest weight buffer per layer. Weights, biases, errors and
     * gradients are left as allocated, so nothing is promised about their
     * values. The learning rate, the random stream and the activation
     * function are those Net(double), the generator state and net.hpp's
     * sigmoid would supply.
     */
    constructor (counts: seq<nat>, rate: real, stream: nat -> real, activation: real -> real)
      ensures Valid()
      ensures numLayers == |counts| && layerSizes == counts && largestLayerSize == MaxOf(counts)
      ensures eta == rate && draws == stream && drawn == 0 && sigmoid == activation
      ensures forall i :: 0 <= i < |counts| ==> outputs[i] == Zeros(counts[i])
    {
      var outs, errs, largest := InitLayers(counts);
      var p := AllocateLayers(counts, largest);
      var grads := AllocateLayers(counts, largest);
      numLayers := |counts|;
      layerSizes := counts;
      largestLayerSize := largest;
      eta := rate;
      draws := stream;
      drawn := 0;
      sigmoid := activation;
      biases, weights, outputs, errors := p.biases, p.weights, outs, errs;
      gradAvgsBiases, gradAvgsWeights := grads.biases, grads.weights;
    }

    /** getLayerSize (bpnet.hpp:124-126): never more than the largest layer size the buffers are cut for. */
    function GetLayerSize(n: nat): (r: nat)
      requires Valid() && n < numLayers
      reads this
      ensures r == layerSizes[n] && r <= largestLayerSize
    {
      layerSizes[n]
    }

    /** getLayerCount (bpnet.hpp:128-130): one entry of the size list per layer. */
    function GetLayerCount(): (r: nat)
      reads this
      ensures Valid() ==> r == |layerSizes| && r == |outputs|
    {
      numLayers
    }

    /** getEta (net.hpp:48-50): the rate the constructor stored; no method changes it. */
    function GetEta(): (r: real)
      reads this
      ensures r == eta
    {
      eta
    }

    /** An unmodulated network ignores the modulator (bpnet.hpp:73-75). */
    method SetH(h: real)
    {
    }

    /** ... and reports 0 for it (bpnet.hpp:77-79). */
    function GetH(): real
    {
      0.0
    }

    /** getw (bpnet.hpp:249-251): the weight into node `to` of layer l from node `from` of layer l-1. */
    function GetW(l: nat, to: nat, from: nat): (r: real)
      requires Valid() && l < numLayers && to < largestLayerSize && from < largestLayerSize
      reads this
      ensures to + largestLayerSize * from < |weights[l]| == largestLayerSize * largestLayerSize
      ensures r == weights[l][to + largestLayerSize * from]
    {
      CellBound(largestLayerSize, to, from);
      weights[l][Cell(largestLayerSize, to, from)]
    }

    /** getb (bpnet.hpp:259-261): node n's bias, which lies inside the layer's bias row. */
    function GetB(l: nat, n: nat): (r: real)
      requires Valid() && l < numLayers && n < layerSizes[l]
      reads this
      ensures n < |biases[l]| && r == Parameters().biases[l][n]
    {
      biases[l][n]
    }

    /** getOutputs (bpnet.hpp:120-122): the output layer's values. */
    function GetOutputs(): (r: seq<real>)
      requires Valid() && numLayers >= 1
      reads this
      ensures |r| == layerSizes[numLayers - 1]
    {
      outputs[numLayers - 1]
    }

    /** getDataSize (bpnet.hpp:134-149). */
    method GetDataSize() returns (total: nat)
      requires Valid()
      ensures total == DataSize(layerSizes)
    {
      var pc := 0;
      total := 0;
      for i := 0 to numLayers
        invariant total == LayerOffset(layerSizes, i)
        invariant pc == (if i == 0 then 0 else layerSizes[i - 1])
      {
        var c := layerSizes[i];
        assert 1 + pc == Stride(layerSizes, i);
        SpanIsProduct(c, Stride(layerSizes, i));
        total := total + c * (1 + pc);
        pc := c;
      }
    }

    /**
     * setInputs (bpnet.hpp:104-108): the first layerSizes[0] values of d
     * become the input layer's outputs; nothing else changes.
     */
    method SetInputs(d: seq<real>)
      requires Valid() && numLayers >= 1 && |d| >= layerSizes[0]
      modifies this
      ensures Valid()
      ensures outputs == old(outputs)[0 := d[..layerSizes[0]]]
      ensures Parameters() == old(Parameters()) && Gradients() == old(Gradients()) && errors == old(errors) && drawn == old(drawn)
    {
      for i := 0 to layerSizes[0]
        invariant Valid()
        invariant |outputs| == |old(outputs)|
        invariant forall l :: 1 <= l < numLayers ==> outputs[l] == old(outputs)[l]
        invariant forall k :: 0 <= k < layerSizes[0] ==> outputs[0][k] == if k < i then d[k] else old(outputs)[0][k]
        invariant Parameters() == old(Parameters()) && Gradients() == old(Gradients()) && errors == old(errors) && drawn == old(drawn)
      {
        outputs := outputs[0 := outputs[0][i := d[i]]];
      }
      assert outputs[0] == d[..layerSizes[0]];
    }

    /**
     * One node's part of save (bpnet.hpp:160-165): the bias, then for a
     * non-input layer the incoming weights, written from the cursor g on;
     * b and w are layer i's bias row and weight buffer.
     */
    method SaveNode(buf: array<real>, g: nat, i: nat, b: seq<real>, w: seq<real>, j: nat) returns (next: nat)
      requires Row(layerSizes, largestLayerSize, i, b, w) && j < layerSizes[i]
      requires g + Stride(layerSizes, i) <= buf.Length
      modifies buf
      ensures next == g + Stride(layerSizes, i)
      ensures Written(old(buf[..]), buf[..], g, next, NodeBlock(layerSizes, largestLayerSize, i, b, w, j))
    {
      var L := largestLayerSize;
      ghost var ws := NodeWeights(layerSizes, L, i, w, j);
      buf[g] := b[j];
      next := g + 1;
      assert buf[g .. next] == [b[j]];
      if i > 0 {
        for k := 0 to layerSizes[i - 1]
          invariant next == g + 1 + k
          invariant Written(old(buf[..]), buf[..], g, next, [b[j]] + ws[..k])
        {
          CellBound(L, j, k);
          buf[next] := w[Cell(L, j, k)];
          assert ws[k] == w[Cell(L, j, k)];
          assert ws[..k + 1] == ws[..k] + [ws[k]];
          next := next + 1;
          assert buf[g .. next] == buf[g .. next - 1] + [buf[next - 1]];
        }
        assert ws[..layerSizes[i - 1]] == ws;
      }
    }

    /** The nodes of layer i, in order (bpnet.hpp:159-166). */
    method SaveLayer(buf: array<real>, g: nat, i: nat, b: seq<real>, w: seq<real>) returns (next: nat)
      requires Row(layerSizes, largestLayerSize, i, b, w)
      requires g + Span(layerSizes[i], Stride(layerSizes, i)) <= buf.Length
      modifies buf
      ensures next == g + Span(layerSizes[i], Stride(layerSizes, i)) && g <= next
      ensures Written(old(buf[..]), buf[..], g, next, LayerImage(layerSizes, largestLayerSize, i, b, w))
    {
      ghost var blocks := LayerBlocks(layerSizes, largestLayerSize, i, b, w);
      LayerImageLength(layerSizes, largestLayerSize, i, b, w);
      next := g;
      for j := 0 to layerSizes[i]
        invariant next == g + |Concat(blocks[..j])| <= g + |Concat(blocks)|
        invariant Written(old(buf[..]), buf[..], g, next, Concat(blocks[..j]))
      {
        ConcatAt(blocks, j);
        ghost var before := buf[..];
        var after := SaveNode(buf, next, i, b, w, j);
        WrittenThen(old(buf[..]), before, buf[..], g, next, after, Concat(blocks[..j]), blocks[j]);
        ConcatSnoc(blocks, j);
        next := after;
      }
      assert blocks[..layerSizes[i]] == blocks;
    }

    /**
     * The state of save's layer loop after i layers: now is orig with the
     * images of p's layers 0..i-1 written from base to g.
     */
    ghost predicate SavedUpTo(orig: seq<real>, now: seq<real>, base: nat, p: Params, i: nat, g: nat)
    {
      && i <= |layerSizes| && Shaped(layerSizes, largestLayerSize, p)
      && g == base + LayerOffset(layerSizes, i) && base + DataSize(layerSizes) <= |now|
      && LayerOffset(layerSizes, i) <= DataSize(layerSizes)
      && Written(orig, now, base, g, Concat(LayerImages(layerSizes, largestLayerSize, p)[..i]))
    }

    /** One pass of save's layer loop (bpnet.hpp:159-166): layer i is written at g. */
    method SaveLayerAt(buf: array<real>, ghost orig: seq<real>, base: nat, p: Params, i: nat, g: nat) returns (next: nat)
      requires i < |layerSizes| && SavedUpTo(orig, buf[..], base, p, i, g)
      modifies buf
      ensures SavedUpTo(orig, buf[..], base, p, i + 1, next)
    {
      ghost var images := LayerImages(layerSizes, largestLayerSize, p);
      LayerOffsetStep(layerSizes, i);
      ghost var before := buf[..];
      next := SaveLayer(buf, g, i, p.biases[i], p.weights[i]);
      WrittenThen(orig, before, buf[..], base, g, next, Concat(images[..i]), images[i]);
      ConcatSnoc(images, i);
    }

    /** The layer loop of save (bpnet.hpp:158-167) over parameters p. */
    method SaveLayers(buf: array<real>, base: nat, p: Params)
      requires Shaped(layerSizes, largestLayerSize, p) && base + DataSize(layerSizes) <= buf.Length
      modifies buf
      ensures Written(old(buf[..]), buf[..], base, base + DataSize(layerSizes), Serialised(layerSizes, largestLayerSize, p))
    {
      var g := base;
      for i := 0 to |layerSizes|
        invariant SavedUpTo(old(buf[..]), buf[..], base, p, i, g)
      {
        g := SaveLayerAt(buf, old(buf[..]), base, p, i, g);
      }
      ghost var images := LayerImages(layerSizes, largestLayerSize, p);
      assert images[..|layerSizes|] == images;
    }

    /**
     * save (bpnet.hpp:151-168): writes the network's image, DataSize values
     * from base on (the source's buf address), and no other position.
     */
    method Save(buf: array<real>, base: nat)
      requires Valid() && base + DataSize(layerSizes) <= buf.Length
      modifies buf
      ensures Spliced(old(buf[..]), buf[..], base, Serialised(layerSizes, largestLayerSize, Parameters()))
    {
      SaveLayers(buf, base, Parameters());
      WrittenSpliced(old(buf[..]), buf[..], base, base + DataSize(layerSizes), Serialised(layerSizes, largestLayerSize, Parameters()));
    }

    /**
     * One node's part of load (bpnet.hpp:179-184): given layer i's bias row b
     * and weight buffer w, reads the bias and then, for a non-input layer,
     * the incoming weights from position g of buf on.
     */
    method LoadNode(buf: seq<real>, g: nat, i: nat, j: nat, b: seq<real>, w: seq<real>) returns (b2: seq<real>, w2: seq<real>)
      requires Row(layerSizes, largestLayerSize, i, b, w) && j < layerSizes[i]
      requires g + Stride(layerSizes, i) <= |buf|
      ensures Row(layerSizes, largestLayerSize, i, b2, w2)
      ensures RowUpdate(layerSizes, largestLayerSize, i, j, b, w, b2, w2)
      ensures NodeBlock(layerSizes, largestLayerSize, i, b2, w2, j) == buf[g .. g + Stride(layerSizes, i)]
    {
      b2 := b[j := buf[g]];
      w2 := w;
      var n := Prev(layerSizes, i);
      for k := 0 to n
        invariant WeightsRead(layerSizes, largestLayerSize, i, j, w, buf, g, k, w2)
      {
        w2 := ReadWeight(layerSizes, largestLayerSize, i, j, w, buf, g, k, w2);
      }
      NodeBlockRead(layerSizes, largestLayerSize, i, j, b2, w2, buf, g);
    }

    /**
     * The state of load's node loop in layer i after j nodes: (b2, w2) is
     * (b, w) with the blocks of nodes 0..j-1 read from buf[g..next] and the
     * cells outside the shape untouched.
     */
    ghost predicate NodesLoaded(buf: seq<real>, g: nat, i: nat, b: seq<real>, w: seq<real>, j: nat, next: nat, b2: seq<real>, w2: seq<real>)
    {
      var L := largestLayerSize;
      && Row(layerSizes, L, i, b, w) && Row(layerSizes, L, i, b2, w2) && j <= layerSizes[i]
      && next == g + Span(j, Stride(layerSizes, i)) && Span(j, Stride(layerSizes, i)) <= Span(layerSizes[i], Stride(layerSizes, i))
      && g + Span(layerSizes[i], Stride(layerSizes, i)) <= |buf|
      && Concat(LayerBlocks(layerSizes, L, i, b2, w2)[..j]) == buf[g .. next]
      && forall c :: 0 <= c < L * L && !InShape(layerSizes, L, i, c) ==> w2[c] == w[c]
    }

    /** One pass of load's node loop (bpnet.hpp:179-184): node j is read at next. */
    method LoadNodeAt(buf: seq<real>, g: nat, i: nat, ghost b: seq<real>, ghost w: seq<real>, j: nat, next: nat, b2: seq<real>, w2: seq<real>)
      returns (next2: nat, b3: seq<real>, w3: seq<real>)
      requires NodesLoaded(buf, g, i, b, w, j, next, b2, w2) && j < layerSizes[i]
      ensures NodesLoaded(buf, g, i, b, w, j + 1, next2, b3, w3)
    {
      var L := largestLayerSize;
      SpanMonotone(j + 1, layerSizes[i], Stride(layerSizes, i));
      b3, w3 := LoadNode(buf, next, i, j, b2, w2);
      LoadStep(layerSizes, L, i, j, b2, w2, b3, w3, buf, g, next);
      next2 := next + Stride(layerSizes, i);
      forall c | 0 <= c < L * L && !InShape(layerSizes, L, i, c)
        ensures w3[c] == w[c]
      {
        OutsideShapeNotNode(layerSizes, L, i, j, c);
        assert w3[c] == w2[c];
      }
      assert next2 == g + Span(j + 1, Stride(layerSizes, i));
    }

    /**
     * The nodes of layer i, in order (bpnet.hpp:178-185), read into the
     * layer's current rows b and w: afterwards the layer's image is the
     * values from g on, and cells outside the shape keep w's values.
     */
    method LoadLayer(buf: seq<real>, g: nat, i: nat, b: seq<real>, w: seq<real>) returns (next: nat, b2: seq<real>, w2: seq<real>)
      requires Row(layerSizes, largestLayerSize, i, b, w)
      requires g + Span(layerSizes[i], Stride(layerSizes, i)) <= |buf|
      ensures Row(layerSizes, largestLayerSize, i, b2, w2)
      ensures next == g + Span(layerSizes[i], Stride(layerSizes, i)) && g <= next
      ensures LayerImage(layerSizes, largestLayerSize, i, b2, w2) == buf[g .. next]
      ensures forall c :: 0 <= c < largestLayerSize * largestLayerSize && !InShape(layerSizes, largestLayerSize, i, c) ==> w2[c] == w[c]
    {
      var L := largestLayerSize;
      next, b2, w2 := g, b, w;
      for j := 0 to layerSizes[i]
        invariant NodesLoaded(buf, g, i, b, w, j, next, b2, w2)
      {
        next, b2, w2 := LoadNodeAt(buf, g, i, b, w, j, next, b2, w2);
      }
      ghost var blocks2 := LayerBlocks(layerSizes, L, i, b2, w2);
      assert blocks2[..layerSizes[i]] == blocks2;
    }

    /**
     * The state of load's layer loop after i layers: q is p with layers
     * 0..i-1 read from buf[base..g], whose images are `images`, and with
     * every cell outside the shape left as in p.
     */
    ghost predicate Loaded(buf: seq<real>, base: nat, p: Params, i: nat, g: nat, q: Params, images: seq<seq<real>>)
    {
      var L := largestLayerSize;
      && i <= |layerSizes| && Shaped(layerSizes, L, q)
      && g == base + LayerOffset(layerSizes, i) && base + DataSize(layerSizes) <= |buf|
      && LayerOffset(layerSizes, i) <= DataSize(layerSizes)
      && |images| == i && Concat(images) == buf[base .. g]
      && (forall l :: 0 <= l < i ==> images[l] == LayerImage(layerSizes, L, l, q.biases[l], q.weights[l]))
      && |p.weights| == |layerSizes|
      && (forall l :: 0 <= l < |layerSizes| ==> |p.weights[l]| == L * L)
      && (forall l, c :: 0 <= l < |layerSizes| && 0 <= c < L * L && !InShape(layerSizes, L, l, c) ==> q.weights[l][c] == p.weights[l][c])
    }

    /** One pass of load's layer loop (bpnet.hpp:178-185): layer i is read into q. */
    method LoadLayerInto(buf: seq<real>, base: nat, ghost p: Params, i: nat, g: nat, q: Params, ghost images: seq<seq<real>>)
      returns (next: nat, q2: Params, ghost images2: seq<seq<real>>)
      requires i < |layerSizes| && Loaded(buf, base, p, i, g, q, images)
      ensures Loaded(buf, base, p, i + 1, next, q2, images2)
    {
      var L := largestLayerSize;
      LayerOffsetStep(layerSizes, i);
      var b, w;
      next, b, w := LoadLayer(buf, g, i, q.biases[i], q.weights[i]);
      q2 := Params(q.biases[i := b], q.weights[i := w]);
      AppendImage(images, LayerImage(layerSizes, L, i, b, w), buf, base, g, next);
      images2 := images + [LayerImage(layerSizes, L, i, b, w)];
    }

    /**
     * The layer loop of load (bpnet.hpp:177-186) over the parameters p it
     * overwrites: afterwards the image is the DataSize values from base on,
     * and cells outside the shape keep p's values.
     */
    method LoadLayers(buf: seq<real>, base: nat, p: Params) returns (r: Params)
      requires Shaped(layerSizes, largestLayerSize, p) && base + DataSize(layerSizes) <= |buf|
      ensures Shaped(layerSizes, largestLayerSize, r)
      ensures Serialised(layerSizes, largestLayerSize, r) == buf[base .. base + DataSize(layerSizes)]
      ensures forall l, c :: 0 <= l < |layerSizes| && 0 <= c < largestLayerSize * largestLayerSize && !InShape(layerSizes, largestLayerSize, l, c) ==> r.weights[l][c] == p.weights[l][c]
    {
      ghost var images: seq<seq<real>> := [];
      var g := base;
      r := p;
      for i := 0 to |layerSizes|
        invariant Loaded(buf, base, p, i, g, r, images)
      {
        g, r, images := LoadLayerInto(buf, base, p, i, g, r, images);
      }
      ImagesSerialised(layerSizes, largestLayerSize, r, images);
    }

    /**
     * load (bpnet.hpp:170-187): afterwards the network's image is the
     * DataSize values from base on. Weight cells outside the shape are not
     * read and keep their values; nothing else changes.
     */
    method Load(buf: seq<real>, base: nat)
      requires Valid() && base + DataSize(layerSizes) <= |buf|
      modifies this
      ensures Valid()
      ensures Serialised(layerSizes, largestLayerSize, Parameters()) == buf[base .. base + DataSize(layerSizes)]
      ensures SamePadding(layerSizes, largestLayerSize, old(Parameters()), Parameters())
      ensures outputs == old(outputs) && errors == old(errors) && Gradients() == old(Gradients()) && drawn == old(drawn)
    {
      var r := LoadLayers(buf, base, Parameters());
      SetParameters(r, drawn);
    }

    /** setInput (bpnet.hpp:115-117): one input slot. */
    method SetInput(n: nat, v: real)
      requires Valid() && numLayers >= 1 && n < layerSizes[0]
      modifies this
      ensures Valid()
      ensures outputs == old(outputs)[0 := old(outputs)[0][n := v]]
      ensures Parameters() == old(Parameters()) && Gradients() == old(Gradients()) && errors == old(errors) && drawn == old(drawn)
    {
      outputs := outputs[0 := outputs[0][n := v]];
    }

    /** n successive drand(-r, r) calls (bpnet.hpp:229-233), starting at draw d. */
    method DrawRow(d: nat, n: nat, r: real) returns (row: seq<real>)
      ensures row == DrawnRow(draws, d, n, r)
    {
      row := [];
      for k := 0 to n
        invariant row == DrawnRow(draws, d, k, r)
      {
        row := row + [Drand(draws(d + k), -r, r)];
      }
    }

    /**
     * The layer loop of initWeights (bpnet.hpp:219-234), starting at draw
     * d0: per layer, the biases and then every cell of the weight buffer
     * are drawn from the layer's range. Returns the rows and the next draw.
     */
    method DrawLayers(d0: nat, initr: real, bishop: nat -> real) returns (bs: seq<seq<real>>, ws: seq<seq<real>>, d: nat)
      requires Fits(layerSizes, largestLayerSize)
      ensures d == d0 + DrawsBefore(layerSizes, largestLayerSize, |layerSizes|)
      ensures |bs| == |layerSizes| && |ws| == |layerSizes|
      ensures forall i :: 1 <= i < |layerSizes| ==>
        bs[i] == InitialBiases(layerSizes, largestLayerSize, draws, d0, initr, bishop, i)
        && ws[i] == InitialWeights(layerSizes, largestLayerSize, draws, d0, initr, bishop, i)
      ensures |layerSizes| > 0 ==> |bs[0]| == layerSizes[0] && |ws[0]| == Area(largestLayerSize)
    {
      var L := largestLayerSize;
      bs, ws, d := [], [], d0;
      for i := 0 to |layerSizes|
        invariant d == d0 + DrawsBefore(layerSizes, L, i)
        invariant |bs| == i && |ws| == i
        invariant forall l :: 1 <= l < i ==>
          bs[l] == InitialBiases(layerSizes, L, draws, d0, initr, bishop, l)
          && ws[l] == InitialWeights(layerSizes, L, draws, d0, initr, bishop, l)
        invariant i > 0 ==> |bs[0]| == layerSizes[0] && |ws[0]| == Area(L)
      {
        var r := InitRange(layerSizes, i, initr, bishop);
        var b := DrawRow(d, layerSizes[i], r);
        var w := DrawRow(d + layerSizes[i], Area(L), r);
        bs, ws := bs + [b], ws + [w];
        d := d + layerSizes[i] + Area(L);
      }
    }

    /**
     * The whole of initWeights over values: the drawn layers, then the
     * zeroing of the input layer (bpnet.hpp:236-239).
     */
    method InitialParameters(d0: nat, initr: real, bishop: nat -> real) returns (p: Params, d: nat)
      requires Fits(layerSizes, largestLayerSize) && |layerSizes| >= 1
      ensures p == Initialised(layerSizes, largestLayerSize, draws, d0, initr, bishop)
      ensures d == d0 + DrawsBefore(layerSizes, largestLayerSize, |layerSizes|)
    {
      var L := largestLayerSize;
      var bs, ws;
      bs, ws, d := DrawLayers(d0, initr, bishop);
      var zb := ZeroRow(layerSizes[0]);
      var zw := ZeroRow(Area(L));
      bs, ws := bs[0 := zb], ws[0 := zw];
      ghost var q := Initialised(layerSizes, L, draws, d0, initr, bishop);
      assert bs == q.biases;
      assert ws == q.weights;
      p := Params(bs, ws);
    }

    /**
     * initWeights (bpnet.hpp:218-240): every layer's biases and all L*L
     * cells of its weight buffer, in use or not, are drawn in turn from the
     * network's stream; then the input layer's biases and weights are
     * zeroed. The rest of the network is unchanged.
     */
    method InitWeights(initr: real, bishop: nat -> real)
      requires Valid() && numLayers >= 1
      modifies this
      ensures Valid()
      ensures Parameters() == Initialised(layerSizes, largestLayerSize, draws, old(drawn), initr, bishop)
      ensures drawn == old(drawn) + DrawsBefore(layerSizes, largestLayerSize, numLayers)
      ensures biases[0] == Zeros(layerSizes[0]) && weights[0] == Zeros(largestLayerSize * largestLayerSize)
      ensures outputs == old(outputs) && errors == old(errors) && Gradients() == old(Gradients())
    {
      var p, d := InitialParameters(drawn, initr, bishop);
      SetParameters(p, d);
    }

    /** Stores p as the biases and weights and d as the stream position; nothing else changes. */
    method SetParameters(p: Params, d: nat)
      requires Valid() && Shaped(layerSizes, largestLayerSize, p)
      modifies this
      ensures Valid() && Parameters() == p && drawn == d
      ensures outputs == old(outputs) && errors == old(errors) && Gradients() == old(Gradients())
    {
      biases, weights, drawn := p.biases, p.weights, d;
    }

    /** The innermost loop of update (bpnet.hpp:324-327): node j's net input. */
    method NodeActivation(i: nat, b: seq<real>, w: seq<real>, prev: seq<real>, j: nat) returns (v: real)
      requires Row(layerSizes, largestLayerSize, i, b, w) && 1 <= i && j < layerSizes[i] && |prev| == layerSizes[i - 1]
      ensures v == Activation(layerSizes, largestLayerSize, i, b, w, prev, j, layerSizes[i - 1])
    {
      v := b[j];
      for k := 0 to layerSizes[i - 1]
        invariant v == Activation(layerSizes, largestLayerSize, i, b, w, prev, j, k)
      {
        CellBound(largestLayerSize, j, k);
        v := v + w[Cell(largestLayerSize, j, k)] * prev[k];
      }
    }

    /** The node loop of update (bpnet.hpp:323-329): layer i's outputs, written over row. */
    method ComputeLayer(i: nat, b: seq<real>, w: seq<real>, prev: seq<real>, row: seq<real>) returns (row2: seq<real>)
      requires Row(layerSizes, largestLayerSize, i, b, w) && 1 <= i && |prev| == layerSizes[i - 1] && |row| == layerSizes[i]
      ensures row2 == LayerOutput(layerSizes, largestLayerSize, sigmoid, i, b, w, prev)
    {
      row2 := row;
      for j := 0 to layerSizes[i]
        invariant |row2| == layerSizes[i]
        invariant forall m :: 0 <= m < j ==> row2[m] == LayerOutput(layerSizes, largestLayerSize, sigmoid, i, b, w, prev)[m]
      {
        var v := NodeActivation(i, b, w, prev, j);
        row2 := row2[j := sigmoid(v)];
      }
    }

    /** The layer loop of update (bpnet.hpp:322-330) over parameters p and outputs outs. */
    method ForwardLayers(p: Params, outs: seq<seq<real>>) returns (r: seq<seq<real>>)
      requires Shaped(layerSizes, largestLayerSize, p) && LayersSized(layerSizes, outs)
      ensures r == Forward(layerSizes, largestLayerSize, sigmoid, p, outs, |layerSizes|)
    {
      r := outs;
      if |layerSizes| <= 1 {
        return;
      }
      for i := 1 to |layerSizes|
        invariant r == Forward(layerSizes, largestLayerSize, sigmoid, p, outs, i)
      {
        var row := ComputeLayer(i, p.biases[i], p.weights[i], r[i - 1], r[i]);
        r := r[i := row];
      }
    }

    /**
     * update (bpnet.hpp:321-331): each layer after the input layer is
     * recomputed from the one before, so the outputs become the forward pass
     * of the current inputs; nothing else changes.
     */
    method Update()
      requires Valid()
      modifies this
      ensures Valid()
      ensures outputs == Forward(layerSizes, largestLayerSize, sigmoid, Parameters(), old(outputs), numLayers)
      ensures Parameters() == old(Parameters()) && Gradients() == old(Gradients())
      ensures errors == old(errors) && drawn == old(drawn)
    {
      outputs := ForwardLayers(Parameters(), outputs);
    }

    /**
     * run (net.hpp:73-77): setInputs, update, and the output layer. The
     * result is the last layer of the forward pass of the given inputs.
     */
    method Run(input: seq<real>) returns (r: seq<real>)
      requires Valid() && numLayers >= 1 && |input| >= layerSizes[0]
      modifies this
      ensures Valid()
      ensures outputs == Forward(layerSizes, largestLayerSize, sigmoid, Parameters(), old(outputs)[0 := input[..layerSizes[0]]], numLayers)
      ensures r == outputs[numLayers - 1]
      ensures Parameters() == old(Parameters()) && Gradients() == old(Gradients())
      ensures errors == old(errors) && drawn == old(drawn)
    {
      SetInputs(input);
      Update();
      r := GetOutputs();
    }

    /** The output-layer loop of calcError (bpnet.hpp:301-305), written over row. */
    method OutputErrors(o: seq<real>, y: seq<real>, row: seq<real>) returns (row2: seq<real>)
      requires |y| >= |o| && |row| == |o|
      ensures row2 == OutputDelta(o, y)
    {
      row2 := row;
      for i := 0 to |o|
        invariant |row2| == |o|
        invariant forall m :: 0 <= m < i ==> row2[m] == OutputDelta(o, y)[m]
      {
        var v := o[i];
        row2 := row2[i := v * (1.0 - v) * (v - y[i])];
      }
    }

    /** The innermost loop of calcError (bpnet.hpp:310-312): node j's weighted sum of the next layer's terms. */
    method BackSumLoop(l: nat, wNext: seq<real>, dNext: seq<real>, j: nat) returns (e: real)
      requires l + 1 < |layerSizes| && Fits(layerSizes, largestLayerSize) && |wNext| == largestLayerSize * largestLayerSize
      requires |dNext| == layerSizes[l + 1] && j < layerSizes[l]
      ensures e == BackSum(layerSizes, largestLayerSize, l, wNext, dNext, j, layerSizes[l + 1])
    {
      e := 0.0;
      for i := 0 to layerSizes[l + 1]
        invariant e == BackSum(layerSizes, largestLayerSize, l, wNext, dNext, j, i)
      {
        CellBound(largestLayerSize, i, j);
        e := e + dNext[i] * wNext[Cell(largestLayerSize, i, j)];
      }
    }

    /** The node loop of calcError's hidden layers (bpnet.hpp:309-317), written over row. */
    method HiddenErrors(l: nat, wNext: seq<real>, dNext: seq<real>, o: seq<real>, row: seq<real>) returns (row2: seq<real>)
      requires l + 1 < |layerSizes| && Fits(layerSizes, largestLayerSize) && |wNext| == largestLayerSize * largestLayerSize
      requires |dNext| == layerSizes[l + 1] && |o| == layerSizes[l] && |row| == layerSizes[l]
      ensures row2 == HiddenDelta(layerSizes, largestLayerSize, l, wNext, dNext, o)
    {
      row2 := row;
      for j := 0 to layerSizes[l]
        invariant |row2| == layerSizes[l]
        invariant forall m :: 0 <= m < j ==> row2[m] == HiddenDelta(layerSizes, largestLayerSize, l, wNext, dNext, o)[m]
      {
        var e := BackSumLoop(l, wNext, dNext, j);
        row2 := row2[j := e * o[j] * (1.0 - o[j])];
      }
    }

    /**
     * What the downward loop of BackLayers keeps once layers l.. are done:
     * the output layer and every layer from l on hold their error terms,
     * and the layers below l still hold errs.
     */
    ghost predicate BackFrom(p: Params, outs: seq<seq<real>>, y: seq<real>, errs: seq<seq<real>>, l: nat, r: seq<seq<real>>)
      requires Shaped(layerSizes, largestLayerSize, p) && LayersSized(layerSizes, outs) && LayersSized(layerSizes, errs)
      requires |layerSizes| > 0 && |y| >= layerSizes[|layerSizes| - 1]
      reads this
    {
      var ol := |layerSizes| - 1;
      && (1 <= l <= ol || l == ol)
      && LayersSized(layerSizes, r)
      && (forall m :: 0 <= m < |layerSizes| && (m >= l || m == ol) ==> r[m] == Delta(layerSizes, largestLayerSize, p, outs, y, m))
      && (forall m :: 0 <= m < l && m != ol ==> r[m] == errs[m])
    }

    /** One pass of the downward loop: layer l-1's terms from layer l's. */
    method BackStep(p: Params, outs: seq<seq<real>>, y: seq<real>, errs: seq<seq<real>>, l: nat, r: seq<seq<real>>) returns (r2: seq<seq<real>>)
      requires Shaped(layerSizes, largestLayerSize, p) && LayersSized(layerSizes, outs) && LayersSized(layerSizes, errs)
      requires |layerSizes| > 0 && |y| >= layerSizes[|layerSizes| - 1]
      requires l > 1 && BackFrom(p, outs, y, errs, l, r)
      ensures BackFrom(p, outs, y, errs, l - 1, r2)
    {
      assert r[l] == Delta(layerSizes, largestLayerSize, p, outs, y, l);
      var row := HiddenErrors(l - 1, p.weights[l], r[l], outs[l - 1], r[l - 1]);
      r2 := r[l - 1 := row];
    }

    /**
     * The error pass of calcError (bpnet.hpp:300-318) for parameters p,
     * outputs outs and targets y, with the hidden layers taken from the
     * output layer downwards so that each reads its successor's new terms.
     */
    method BackLayers(p: Params, outs: seq<seq<real>>, y: seq<real>, errs: seq<seq<real>>) returns (r: seq<seq<real>>)
      requires Shaped(layerSizes, largestLayerSize, p) && LayersSized(layerSizes, outs) && LayersSized(layerSizes, errs)
      requires |layerSizes| > 0 && |y| >= layerSizes[|layerSizes| - 1]
      ensures r == Backpropagated(layerSizes, largestLayerSize, p, outs, y, errs)
    {
      var ol := |layerSizes| - 1;
      var top := OutputErrors(outs[ol], y, errs[ol]);
      r := errs[ol := top];
      var l := ol;
      while l > 1
        invariant BackFrom(p, outs, y, errs, l, r)
      {
        r := BackStep(p, outs, y, errs, l, r);
        l := l - 1;
      }
      ghost var bp := Backpropagated(layerSizes, largestLayerSize, p, outs, y, errs);
      forall m | 0 <= m < |r|
        ensures r[m] == bp[m]
      {
      }
    }

    /**
     * calcError (bpnet.hpp:294-319), with the hidden layers in the order
     * back-propagation needs: runs the network on the inputs and leaves in
     * errors every layer's error terms for the targets y.
     */
    method CalcError(input: seq<real>, y: seq<real>)
      requires Valid() && numLayers >= 1 && |input| >= layerSizes[0] && |y| >= layerSizes[numLayers - 1]
      modifies this
      ensures Valid()
      ensures outputs == Forward(layerSizes, largestLayerSize, sigmoid, Parameters(), old(outputs)[0 := input[..layerSizes[0]]], numLayers)
      ensures errors == Backpropagated(layerSizes, largestLayerSize, Parameters(), outputs, y, old(errors))
      ensures Parameters() == old(Parameters()) && Gradients() == old(Gradients()) && drawn == old(drawn)
    {
      SetInputs(input);
      Update();
      errors := BackLayers(Parameters(), outputs, y, errors);
    }
      /**
     * What trainBatch's example loop keeps: the parameters are still p0,
     * the accumulators hold the gradient sums of the first n passes qs and
     * total their squared output errors.
     */
    ghost predicate TrainedUpTo(p0: Params, qs: seq<Pass>, n: nat, total: real)
      reads this
    {
      && Valid() && numLayers >= 1 && Parameters() == p0
      && PassesSized(layerSizes, qs) && n <= |qs|
      && GradientsOf(layerSizes, largestLayerSize, qs, n, Gradients())
      && total == BatchError(layerSizes, qs, n)
    }

    /** The state of trainBatch's example loop after n examples. */
    ghost predicate ExamplesTrained(p0: Params, qs: seq<Pass>, n: nat, total: real, drawn0: nat)
      reads this
    {
      && TrainedUpTo(p0, qs, n, total) && drawn == drawn0
      && (n >= 1 ==> outputs == qs[n - 1].outs)
    }

    /**
     * calcError on input x and target y leaves in outputs and in the error
     * rows of layers 1 on exactly the pass of x and y, whatever the layers
     * held before.
     */
    method CalcErrorPass(x: seq<real>, y: seq<real>, ghost q: Pass)
      requires Valid() && numLayers >= 1 && |x| >= layerSizes[0] && |y| >= layerSizes[numLayers - 1]
      requires q == ExamplePass(layerSizes, largestLayerSize, sigmoid, Parameters(), x, y)
      modifies this
      ensures Valid()
      ensures Parameters() == old(Parameters()) && Gradients() == old(Gradients()) && drawn == old(drawn)
      ensures outputs == q.outs && forall l :: 1 <= l < numLayers ==> errors[l] == q.deltas[l]
    {
      ghost var before := outputs;
      CalcError(x, y);
      RunForgetsPreviousOutputs(layerSizes, largestLayerSize, sigmoid, Parameters(), before, x);
    }

    /**
     * One pass of trainBatch's example loop (bpnet.hpp:349-368) for the n-th
     * example of the batch, with inputs xs[n] and targets ys[n]: calcError,
     * the accumulation and the squared error.
     */
    method TrainExample(xs: seq<seq<real>>, ys: seq<seq<real>>, ghost p0: Params, ghost qs: seq<Pass>, n: nat, total: real)
      returns (total2: real)
      requires ExamplesTrained(p0, qs, n, total, drawn) && PassesOf(layerSizes, largestLayerSize, sigmoid, p0, xs, ys, qs) && n < |xs|
      modifies this
      ensures ExamplesTrained(p0, qs, n + 1, total2, old(drawn))
    {
      var x, y := xs[n], ys[n];
      assert qs[n] == ExamplePass(layerSizes, largestLayerSize, sigmoid, p0, x, y);
      CalcErrorPass(x, y, qs[n]);
      var g2;
      g2, total2 := AccumulatePass(layerSizes, largestLayerSize, qs, n, Gradients(), outputs, errors, y, total);
      SetGradients(g2);
    }

    /** Stores g as the gradient accumulators; nothing else changes. */
    method SetGradients(g: Params)
      requires Valid() && Shaped(layerSizes, largestLayerSize, g)
      modifies this
      ensures Valid() && Gradients() == g
      ensures Parameters() == old(Parameters()) && outputs == old(outputs) && errors == old(errors) && drawn == old(drawn)
    {
      gradAvgsBiases, gradAvgsWeights := g.biases, g.weights;
    }

    /**
     * The example loop of trainBatch (bpnet.hpp:345-369) over a batch with
     * inputs xs and targets ys, whose passes under the
     * parameters p0 are qs.
     */
    method TrainExamples(xs: seq<seq<real>>, ys: seq<seq<real>>, ghost p0: Params, ghost qs: seq<Pass>)
      returns (total: real)
      requires TrainedUpTo(p0, qs, 0, 0.0) && PassesOf(layerSizes, largestLayerSize, sigmoid, p0, xs, ys, qs)
      modifies this
      ensures TrainedUpTo(p0, qs, |xs|, total) && drawn == old(drawn)
      ensures |xs| >= 1 ==> outputs == qs[|xs| - 1].outs
    {
      total := 0.0;
      for nn := 0 to |xs|
        invariant ExamplesTrained(p0, qs, nn, total, old(drawn))
      {
        total := TrainExample(xs, ys, p0, qs, nn, total);
      }
    }

    /**
     * trainBatch (bpnet.hpp:333-387): examples start..start+num-1 of ex are
     * read and trained on as a batch; see BatchTrained.
     */
    method TrainBatch(ex: DataLegacy.ExampleSet, start: nat, num: nat, rate: real) returns (r: real)
      requires Valid() && numLayers >= 1 && ex.Valid() && num >= 1 && start + num <= ex.ct
      requires ex.ninputs >= layerSizes[0] && ex.noutputs >= layerSizes[numLayers - 1]
      modifies this
      ensures Valid() && drawn == old(drawn)
      ensures BatchTrained(layerSizes, largestLayerSize, sigmoid, old(Parameters()), old(ex.InputRows(start, num)), old(ex.OutputRows(start, num)),
                           rate, Gradients(), Parameters(), outputs, r)
    {
      var xs, ys := ex.InputRows(start, num), ex.OutputRows(start, num);
      r := TrainRows(xs, ys, rate);
    }

    /**
     * The first two parts of trainBatch (bpnet.hpp:339-374): the gradient
     * accumulators are zeroed, then every example of the batch is run and
     * added in, with the parameters left as they were.
     */
    method AccumulateRows(xs: seq<seq<real>>, ys: seq<seq<real>>, ghost qs: seq<Pass>) returns (total: real)
      requires Valid() && numLayers >= 1 && Batch(layerSizes, xs, ys) && |xs| >= 1
      requires qs == Passes(layerSizes, largestLayerSize, sigmoid, Parameters(), xs, ys)
      modifies this
      ensures TrainedUpTo(old(Parameters()), qs, |xs|, total) && drawn == old(drawn) && outputs == qs[|xs| - 1].outs
    {
      var g := ZeroGradients(layerSizes, largestLayerSize);
      SetGradients(g);
      ZeroParamsEmptyBatch(layerSizes, largestLayerSize, qs);
      total := TrainExamples(xs, ys, old(Parameters()), qs);
    }

    /** trainBatch on a batch already read: inputs xs and targets ys. */
    method TrainRows(xs: seq<seq<real>>, ys: seq<seq<real>>, rate: real) returns (r: real)
      requires Valid() && numLayers >= 1 && Batch(layerSizes, xs, ys) && |xs| >= 1
      modifies this
      ensures Valid() && drawn == old(drawn)
      ensures BatchTrained(layerSizes, largestLayerSize, sigmoid, old(Parameters()), xs, ys, rate, Gradients(), Parameters(), outputs, r)
    {
      ghost var p0 := Parameters();
      ghost var qs := Passes(layerSizes, largestLayerSize, sigmoid, p0, xs, ys);
      var total := AccumulateRows(xs, ys, qs);
      var factor := Factor(|xs|);
      ghost var g1, outs := Gradients(), outputs;
      var p2 := ApplyGradients(layerSizes, largestLayerSize, Parameters(), Gradients(), rate, factor);
      r := total * factor;
      MeanOfTotal(layerSizes, qs, |xs|, total, factor);
      BatchTrainedFrom(layerSizes, largestLayerSize, sigmoid, p0, xs, ys, rate, qs, g1, p2, outs, r);
      SetParameters(p2, drawn);
    }
  }
}
