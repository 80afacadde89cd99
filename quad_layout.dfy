/** The data layout that the batch renderer builds each frame: how one square
    becomes four interleaved vertices (x, y, r, g, b) and six triangle indices,
    and what the whole frame's buffers are after a run of squares. */
module QuadLayout {

  /** `unsigned int` values (modulus 2^32) and the wrap-around of their arithmetic. */
  type U32 = x: nat | x < 0x1_0000_0000

  function WrapU32(x: nat): (r: U32)
    ensures x < 0x1_0000_0000 ==> r == x
  {
    x % 0x1_0000_0000
  }

  datatype Vec2 = Vec2(x: real, y: real)
  datatype Vec3 = Vec3(r: real, g: real, b: real)
  /** An 8-bit-per-channel colour passed as three `unsigned int`s; not clamped. */
  datatype UVec3 = UVec3(r: U32, g: U32, b: U32)

  /** One `add_square` call: top-left anchor, colour and edge length. */
  datatype Square = Square(pos: Vec2, color: UVec3, size: real)

  /** `inverse_lerp(0, 255, channel)` over the reals. */
  function Normalize(channel: real): (v: real)
  {
    channel / 255.0
  }

  /** Colour normalisation is the affine map onto [0, 1]: it is undone by
      multiplying by 255, sends 0 to 0 and 255 to 1, and lands in [0, 1]
      exactly for channels in [0, 255] (nothing is clamped). */
  lemma NormalizeIsAffine(channel: real)
    ensures Normalize(channel) * 255.0 == channel
    ensures 0.0 <= channel <= 255.0 <==> 0.0 <= Normalize(channel) <= 1.0
    ensures channel == 0.0 ==> Normalize(channel) == 0.0
    ensures channel == 255.0 ==> Normalize(channel) == 1.0
  {
  }

  /** The five floats one `push_vert(x, y, r, g, b)` appends. */
  function VertexFloats(x: real, y: real, r: real, g: real, b: real): (v: seq<real>)
  {
    [x, y, Normalize(r), Normalize(g), Normalize(b)]
  }

  /** A vertex is five floats: the position, then the three channels each
      scaled into [0, 1] by 1/255. */
  lemma VertexFloatsLayout(x: real, y: real, r: real, g: real, b: real)
    ensures var v := VertexFloats(x, y, r, g, b);
            |v| == 5 && v[0] == x && v[1] == y
            && v[2] * 255.0 == r && v[3] * 255.0 == g && v[4] * 255.0 == b
  {
    NormalizeIsAffine(r);
    NormalizeIsAffine(g);
    NormalizeIsAffine(b);
  }

  /** Corner `c` of a square, in the order the vertices are pushed:
      0 top-left, 1 top-right, 2 bottom-left, 3 bottom-right (y grows upwards). */
  function Corner(s: Square, c: nat): (p: Vec2)
    requires c < 4
  {
    var x := if c == 1 || c == 3 then s.pos.x + s.size else s.pos.x;
    var y := if c == 2 || c == 3 then s.pos.y - s.size else s.pos.y;
    Vec2(x, y)
  }

  function CornerVertex(s: Square, c: nat): (v: seq<real>)
    requires c < 4
  {
    var p := Corner(s, c);
    VertexFloats(p.x, p.y, s.color.r as real, s.color.g as real, s.color.b as real)
  }

  /** The twenty floats one `add_square` appends: its four `push_vert` calls. */
  function SquareVertices(s: Square): (v: seq<real>)
  {
    var Square(pos, color, size) := s;
    var r, g, b := color.r as real, color.g as real, color.b as real;
    VertexFloats(pos.x, pos.y, r, g, b)
    + VertexFloats(pos.x + size, pos.y, r, g, b)
    + VertexFloats(pos.x, pos.y - size, r, g, b)
    + VertexFloats(pos.x + size, pos.y - size, r, g, b)
  }

  /** Four `push_vert` calls in a row, at the corners of `s`, append exactly
      the square's twenty floats. */
  lemma FourPushes(s: Square, v0: seq<real>, v1: seq<real>, v2: seq<real>, v3: seq<real>, v4: seq<real>)
    requires v1 == v0 + VertexFloats(s.pos.x, s.pos.y, s.color.r as real, s.color.g as real, s.color.b as real)
    requires v2 == v1 + VertexFloats(s.pos.x + s.size, s.pos.y, s.color.r as real, s.color.g as real, s.color.b as real)
    requires v3 == v2 + VertexFloats(s.pos.x, s.pos.y - s.size, s.color.r as real, s.color.g as real, s.color.b as real)
    requires v4 == v3 + VertexFloats(s.pos.x + s.size, s.pos.y - s.size, s.color.r as real, s.color.g as real, s.color.b as real)
    ensures v4 == v0 + SquareVertices(s)
  {
  }

  /** The six indices of a square whose four vertices start at `base`: the
      triangles {top-left, top-right, bottom-left} and {top-right, bottom-left,
      bottom-right}. */
  function SquareIndices(base: nat): (e: seq<nat>)
  {
    [base, base + 1, base + 2, base + 1, base + 2, base + 3]
  }

  /** The vertex at which the `k`-th square of a frame starts, as an
      `unsigned int`: `4 * k` modulo 2^32. */
  function SquareOffset(k: nat): (o: U32)
  {
    WrapU32(4 * k)
  }

  /** The vertex buffer after the squares `squares` were added to an empty one. */
  function FrameVertices(squares: seq<Square>): (v: seq<real>)
    ensures |v| == 20 * |squares|
    decreases |squares|
  {
    if squares == [] then []
    else FrameVertices(squares[..|squares| - 1]) + SquareVertices(squares[|squares| - 1])
  }

  /** The index buffer after `n` squares were added to an empty one. */
  function FrameIndices(n: nat): (e: seq<nat>)
    ensures |e| == 6 * n
  {
    if n == 0 then []
    else FrameIndices(n - 1) + SquareIndices(SquareOffset(n - 1))
  }

  // ---------------------------------------------------------------------------
  // Arithmetic of the wrapped counter

  lemma {:induction false} ModOfMultiplePlus(q: nat, r: nat)
    ensures (q * 0x1_0000_0000 + r) % 0x1_0000_0000 == r % 0x1_0000_0000
  {
    if q > 0 {
      ModOfMultiplePlus(q - 1, r);
      assert q * 0x1_0000_0000 + r == (q - 1) * 0x1_0000_0000 + r + 0x1_0000_0000;
    }
  }

  /** `square_count * 4`, computed from a counter that has itself wrapped, is
      the offset `4 * k` modulo 2^32 of the `k`-th square. */
  lemma OffsetFromCounter(k: nat)
    ensures WrapU32(WrapU32(k) * 4) == SquareOffset(k)
  {
    var q, r := k / 0x1_0000_0000, k % 0x1_0000_0000;
    assert k == q * 0x1_0000_0000 + r;
    assert 4 * k == (4 * q) * 0x1_0000_0000 + 4 * r;
    ModOfMultiplePlus(4 * q, 4 * r);
  }

  /** `square_count++` on the wrapped counter is the wrapped incremented count. */
  lemma CounterIncrement(k: nat)
    ensures WrapU32(WrapU32(k) + 1) == WrapU32(k + 1)
  {
    var q, r := k / 0x1_0000_0000, k % 0x1_0000_0000;
    assert k + 1 == q * 0x1_0000_0000 + (r + 1);
    ModOfMultiplePlus(q, r + 1);
  }

  /** Every offset is a multiple of four below 2^32, so its last vertex
      `offset + 3` is still an `unsigned int`. */
  lemma OffsetAligned(k: nat)
    ensures SquareOffset(k) % 4 == 0
    ensures SquareOffset(k) + 3 < 0x1_0000_0000
  {
    var q, r := (4 * k) / 0x1_0000_0000, (4 * k) % 0x1_0000_0000;
    assert 4 * k == q * 0x1_0000_0000 + r;
    assert 4 * k == 4 * (q * 0x4000_0000) + r;
  }

  /** The six `unsigned int` indices `add_square` computes from the wrapped
      counter, `o = square_count * 4` then `o`, `o+1`, `o+2`, `o+1`, `o+2`,
      `o+3` each modulo 2^32, are exactly the square's two triangles at its
      offset: `o + 1..3` never wrap. */
  lemma WrappedIndices(count: U32, k: nat)
    requires count == WrapU32(k)
    ensures var o := WrapU32(count * 4);
            [o, WrapU32(o + 1), WrapU32(o + 2), WrapU32(o + 1), WrapU32(o + 2), WrapU32(o + 3)]
            == SquareIndices(SquareOffset(k))
  {
    OffsetFromCounter(k);
    OffsetAligned(k);
  }

  // ---------------------------------------------------------------------------
  // Properties of the frame buffers

  /** One more square appends its twenty floats to the vertex buffer. */
  lemma FrameVerticesAppend(squares: seq<Square>, s: Square)
    ensures FrameVertices(squares + [s]) == FrameVertices(squares) + SquareVertices(s)
  {
    assert (squares + [s])[..|squares|] == squares;
  }

  /** Square `k` occupies exactly `indices[6k .. 6k+6]`, and its six indices are
      the two triangles {0, 1, 2} and {1, 2, 3} over its own four vertices. */
  lemma {:induction false} FrameIndicesAt(n: nat, k: nat)
    requires k < n
    ensures FrameIndices(n)[6 * k .. 6 * k + 6] == SquareIndices(SquareOffset(k))
  {
    var init, last := FrameIndices(n - 1), SquareIndices(SquareOffset(n - 1));
    assert FrameIndices(n) == init + last;
    if k < n - 1 {
      FrameIndicesAt(n - 1, k);
      assert (init + last)[6 * k .. 6 * k + 6] == init[6 * k .. 6 * k + 6];
    } else {
      assert (init + last)[6 * k .. 6 * k + 6] == last;
    }
  }

  /** A square numbered below 2^30, however many squares follow it, has
      exactly the indices `[4k, 4k+1, 4k+2, 4k+1, 4k+2, 4k+3]`. */
  lemma IndexPattern(n: nat, k: nat)
    requires k < n && k < 0x4000_0000
    ensures FrameIndices(n)[6 * k .. 6 * k + 6]
         == [4 * k, 4 * k + 1, 4 * k + 2, 4 * k + 1, 4 * k + 2, 4 * k + 3]
  {
    FrameIndicesAt(n, k);
  }

  /** No index points past the vertex data: every index is below `4 * n`, the
      number of vertices (`|vertices| / 5`). This holds for every `n`: a
      wrapped offset is below the unwrapped `4 * k`, so past 2^30 squares the
      indices stay in range but name earlier squares' vertices. */
  lemma {:induction false} IndicesInRange(n: nat)
    ensures forall i :: 0 <= i < |FrameIndices(n)| ==> FrameIndices(n)[i] < 4 * n
  {
    if n > 0 {
      IndicesInRange(n - 1);
      assert SquareOffset(n - 1) <= 4 * (n - 1);
      var e := FrameIndices(n);
      forall i | 0 <= i < |e| ensures e[i] < 4 * n {
        if i >= 6 * (n - 1) {
          assert e[i] in SquareIndices(SquareOffset(n - 1));
        } else {
          assert e[i] == FrameIndices(n - 1)[i];
        }
      }
    }
  }

  /** With 2^30 + 1 squares in one frame the counter arithmetic wraps: the last
      square's first triangle points back at vertex 0, the first square's. */
  lemma IndicesWrapAround()
    ensures FrameIndices(0x4000_0000 + 1)[6 * 0x4000_0000] == 0
  {
    FrameIndicesAt(0x4000_0000 + 1, 0x4000_0000);
  }

  /** Adding squares only appends indices: the buffer for `n` squares is a
      prefix of the buffer for any `m >= n`. */
  lemma {:induction false} FrameIndicesPrefix(n: nat, m: nat)
    requires n <= m
    ensures FrameIndices(m)[..6 * n] == FrameIndices(n)
    decreases m
  {
    if n < m {
      FrameIndicesPrefix(n, m - 1);
      assert FrameIndices(m)[..6 * (m - 1)] == FrameIndices(m - 1);
    }
  }

  /** Adding squares only appends vertex floats. */
  lemma {:induction false} FrameVerticesPrefix(squares: seq<Square>, more: seq<Square>)
    ensures FrameVertices(squares + more)[..20 * |squares|] == FrameVertices(squares)
    decreases |more|
  {
    if more != [] {
      var all := squares + more;
      var shorter := more[..|more| - 1];
      assert all[..|all| - 1] == squares + shorter;
      FrameVerticesPrefix(squares, shorter);
    } else {
      assert squares + more == squares;
    }
  }

  /** Square `k` occupies `vertices[20k .. 20k+20]`. */
  lemma {:induction false} FrameVerticesSquare(squares: seq<Square>, k: nat)
    requires k < |squares|
    ensures FrameVertices(squares)[20 * k .. 20 * k + 20] == SquareVertices(squares[k])
    decreases |squares|
  {
    var init := squares[..|squares| - 1];
    if k < |squares| - 1 {
      FrameVerticesSquare(init, k);
      assert init[k] == squares[k];
    }
  }

  /** Within one square's twenty floats, vertex `c` is corner `c`. */
  lemma SquareVertexAt(s: Square, c: nat)
    requires c < 4
    ensures SquareVertices(s)[5 * c .. 5 * c + 5] == CornerVertex(s, c)
  {
    var Square(pos, color, size) := s;
    var r, g, b := color.r as real, color.g as real, color.b as real;
    var v0, v1 := VertexFloats(pos.x, pos.y, r, g, b), VertexFloats(pos.x + size, pos.y, r, g, b);
    var v2, v3 := VertexFloats(pos.x, pos.y - size, r, g, b), VertexFloats(pos.x + size, pos.y - size, r, g, b);
    var all := SquareVertices(s);
    assert all == v0 + v1 + v2 + v3;
    if c == 0 {
      assert all[0..5] == v0;
    } else if c == 1 {
      assert all[5..10] == v1;
    } else if c == 2 {
      assert all[10..15] == v2;
    } else {
      assert all[15..20] == v3;
    }
  }

  /** Vertex `c` of square `k` is `vertices[20k + 5c .. 20k + 5c + 5]`: the
      corner `c` (top-left, top-right, bottom-left, bottom-right) with each
      colour channel divided by 255. */
  lemma FrameVertexAt(squares: seq<Square>, k: nat, c: nat)
    requires k < |squares| && c < 4
    ensures FrameVertices(squares)[20 * k + 5 * c .. 20 * k + 5 * c + 5] == CornerVertex(squares[k], c)
  {
    FrameVerticesSquare(squares, k);
    VertexOfBlock(FrameVertices(squares), SquareVertices(squares[k]), k, c);
    SquareVertexAt(squares[k], c);
  }

  /** Vertex `c` of the `k`-th twenty-float block of a buffer. */
  lemma VertexOfBlock(v: seq<real>, block: seq<real>, k: nat, c: nat)
    requires 20 * k + 20 <= |v| && c < 4 && v[20 * k .. 20 * k + 20] == block
    ensures v[20 * k + 5 * c .. 20 * k + 5 * c + 5] == block[5 * c .. 5 * c + 5]
  {
    SliceOfSlice(v, 20 * k, 20 * k + 20, 5 * c, 5 * c + 5);
  }

  lemma SliceOfSlice<T>(s: seq<T>, i: nat, j: nat, a: nat, b: nat)
    requires i <= j <= |s| && a <= b <= j - i
    ensures s[i..j][a..b] == s[i + a .. i + b]
  {
    var l, r := s[i..j][a..b], s[i + a .. i + b];
    assert |l| == |r|;
    forall t | 0 <= t < |l| ensures l[t] == r[t] {
      assert l[t] == s[i..j][a + t] == s[i + a + t];
    }
  }
}
