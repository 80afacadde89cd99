/** The per-frame quad-batching accumulator: a CPU-side vertex buffer and index
    buffer that `AddSquare` grows and `Render` hands to the GPU in one indexed
    draw. The GPU driver itself is not modelled; what `Clear` and `Render`
    submit to it is returned as a value. */
module BatchRendering {
  import opened QuadLayout

  /** Handle of a linked shader program (`Shader::id`). */
  datatype ShaderProgram = ShaderProgram(id: U32)

  /** The clear colour `Clear` sets on the framebuffer (`glClearColor`). */
  datatype Rgba = Rgba(r: real, g: real, b: real, a: real)

  /** The one indexed triangle-list draw `Render` issues: the program in use,
      the vertex and index data uploaded, and the number of indices drawn. */
  datatype DrawCall = DrawCall(program: ShaderProgram, vertices: seq<real>, indices: seq<U32>, count: nat)

  class BatchRenderer {
    var vboData: seq<real>
    var eboData: seq<U32>
    var squareCount: U32

    /** The squares added since the last `Clear`, in order. */
    ghost var squares: seq<Square>

    /** The buffers are exactly the layout of the squares added so far, and the
        counter is their number as an `unsigned int`. */
    ghost predicate Valid()
      reads this
    {
      && vboData == FrameVertices(squares)
      && eboData == FrameIndices(|squares|)
      && squareCount == WrapU32(|squares|)
    }

    constructor ()
      ensures Valid() && squares == []
      ensures vboData == [] && eboData == [] && squareCount == 0
    {
      vboData := [];
      eboData := [];
      squareCount := 0;
      squares := [];
    }

    /** Empties both buffers and resets the counter, whatever state they were
        in, and returns the colour the framebuffer is cleared to. */
    method Clear(color: Vec3) returns (fill: Rgba)
      modifies this
      ensures Valid() && squares == []
      ensures vboData == [] && eboData == [] && squareCount == 0
      ensures fill == Rgba(color.r, color.g, color.b, 1.0)
    {
      vboData := [];
      eboData := [];
      squareCount := 0;
      squares := [];
      fill := Rgba(color.r, color.g, color.b, 1.0);
    }

    /** Appends one interleaved vertex: the position, then each colour
        channel mapped from [0, 255] to [0, 1]. */
    method PushVert(x: real, y: real, r: real, g: real, b: real)
      modifies this`vboData
      ensures vboData == old(vboData) + VertexFloats(x, y, r, g, b)
    {
      vboData := vboData + [x, y];
      vboData := vboData + [Normalize(r), Normalize(g), Normalize(b)];
    }

    /** Appends the four corners of the square (top-left, top-right,
        bottom-left, bottom-right) and its two triangles, based at vertex
        `square_count * 4`, then counts the square. Nothing already in the
        buffers changes. */
    method AddSquare(pos: Vec2, color: UVec3, size: real)
      requires Valid()
      modifies this
      ensures Valid()
      ensures squares == old(squares) + [Square(pos, color, size)]
      ensures vboData == old(vboData) + SquareVertices(Square(pos, color, size))
      ensures eboData == old(eboData) + SquareIndices(WrapU32(old(squareCount) * 4))
      ensures squareCount == WrapU32(old(squareCount) + 1)
      ensures |vboData| == 20 * |squares| && |eboData| == 6 * |squares|
    {
      ghost var square := Square(pos, color, size);
      var r, g, b := color.r as real, color.g as real, color.b as real;
      ghost var v0 := vboData;
      PushVert(pos.x, pos.y, r, g, b);
      ghost var v1 := vboData;
      PushVert(pos.x + size, pos.y, r, g, b);
      ghost var v2 := vboData;
      PushVert(pos.x, pos.y - size, r, g, b);
      ghost var v3 := vboData;
      PushVert(pos.x + size, pos.y - size, r, g, b);
      FourPushes(square, v0, v1, v2, v3, vboData);

      var offset: U32 := WrapU32(squareCount * 4);
      var firstTriangle: seq<U32> := [offset, WrapU32(offset + 1), WrapU32(offset + 2)];
      var secondTriangle: seq<U32> := [WrapU32(offset + 1), WrapU32(offset + 2), WrapU32(offset + 3)];
      eboData := eboData + firstTriangle;
      eboData := eboData + secondTriangle;
      ghost var n := |squares|;
      WrappedIndices(squareCount, n);
      assert eboData == old(eboData) + SquareIndices(SquareOffset(n));

      squareCount := WrapU32(squareCount + 1);
      squares := squares + [square];
      assert |squares| == n + 1;
      assert vboData == FrameVertices(squares) by {
        FrameVerticesAppend(old(squares), square);
      }
      assert eboData == FrameIndices(n + 1);
      assert squareCount == WrapU32(n + 1) by {
        CounterIncrement(n);
      }
    }

    /** Issues exactly one indexed draw of all the accumulated geometry; the
        buffers are left as they are. Every index drawn names a vertex that
        was uploaded, even after the counter has wrapped. */
    method Render(program: ShaderProgram) returns (draw: DrawCall)
      ensures draw.program == program
      ensures draw.vertices == vboData && draw.indices == eboData
      ensures draw.count == |eboData|
      ensures Valid() ==> (draw.count == 6 * |squares| && |draw.vertices| / 5 == 4 * |squares|)
      ensures Valid() ==>
                forall i :: 0 <= i < |draw.indices| ==> draw.indices[i] < |draw.vertices| / 5
    {
      draw := DrawCall(program, vboData, eboData, |eboData|);
      if Valid() {
        IndicesInRange(|squares|);
      }
    }
  }

  /** One iteration of the demo's draw phase: clear to dark grey, add a red, a
      green and a blue square of size 0.1 stacked at y = 0, 0.5 and -0.5 and
      shifted by `xOffset`, then render. */
  method DrawDemoFrame(renderer: BatchRenderer, program: ShaderProgram, xOffset: real)
    returns (fill: Rgba, draw: DrawCall)
    modifies renderer
    ensures renderer.Valid() && |renderer.squares| == 3
    ensures fill == Rgba(0.1, 0.1, 0.1, 1.0)
    ensures draw.count == 18 && |draw.vertices| == 60
    ensures draw.indices == [0, 1, 2, 1, 2, 3, 4, 5, 6, 5, 6, 7, 8, 9, 10, 9, 10, 11]
    ensures draw.vertices[..20] == [xOffset, 0.0, 1.0, 0.0, 0.0,
                                    xOffset + 0.1, 0.0, 1.0, 0.0, 0.0,
                                    xOffset, -0.1, 1.0, 0.0, 0.0,
                                    xOffset + 0.1, -0.1, 1.0, 0.0, 0.0]
  {
    fill := renderer.Clear(Vec3(0.1, 0.1, 0.1));
    renderer.AddSquare(Vec2(0.0 + xOffset, 0.0), UVec3(255, 0, 0), 0.1);
    renderer.AddSquare(Vec2(0.0 + xOffset, 0.5), UVec3(0, 255, 0), 0.1);
    renderer.AddSquare(Vec2(0.0 + xOffset, -0.5), UVec3(0, 0, 255), 0.1);
    draw := renderer.Render(program);
    FrameVerticesSquare(renderer.squares, 0);
    RedSquareVertices(xOffset);
    ThreeSquareIndices();
  }

  /** The red demo square at (x, 0) of size 0.1: its corners in push order,
      each with colour (1, 0, 0). */
  lemma RedSquareVertices(x: real)
    ensures SquareVertices(Square(Vec2(x, 0.0), UVec3(255, 0, 0), 0.1))
         == [x, 0.0, 1.0, 0.0, 0.0,
             x + 0.1, 0.0, 1.0, 0.0, 0.0,
             x, -0.1, 1.0, 0.0, 0.0,
             x + 0.1, -0.1, 1.0, 0.0, 0.0]
  {
  }

  /** The index buffer of a three-square frame. */
  lemma ThreeSquareIndices()
    ensures FrameIndices(3) == [0, 1, 2, 1, 2, 3, 4, 5, 6, 5, 6, 7, 8, 9, 10, 9, 10, 11]
  {
  }
}
