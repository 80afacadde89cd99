# Quad-batching renderer, modelled in Dafny

This project models `BatchRenderer`, the per-frame quad-batching accumulator of a
small OpenGL sandbox. Each frame the host loop does three things:

1. It calls `clear`, which empties the CPU-side buffers and resets the square counter.
2. It calls `add_square` any number of times. Each call appends four interleaved
   vertices (x, y, r, g, b) and six triangle indices.
3. It calls `render`, which uploads both buffers and issues one indexed draw.

The project has two modules:

- `QuadLayout` (`quad_layout.dfy`) is the pure specification of the data layout.
  `SquareVertices` and `SquareIndices` give what one square contributes.
  `FrameVertices` and `FrameIndices` give what the buffers hold after a run of
  squares since the last clear. Lemmas state the layout properties: buffer
  lengths, the fixed index pattern, index bounds, append-only growth, and vertex
  positions and colours.
- `BatchRendering` (`batch_renderer.dfy`) is the imperative class
  `BatchRenderer`. Its fields are `vboData: seq<real>`, `eboData: seq<U32>` and
  `squareCount: U32`. A ghost field `squares` records the squares added since
  the last `Clear`. The invariant `Valid()` says the three real fields are
  exactly `FrameVertices(squares)`, `FrameIndices(|squares|)` and
  `|squares|` modulo 2^32. `Clear`, `PushVert` and `AddSquare` update the fields
  in place. `Render` only reads them and returns the one draw it would issue,
  as a `DrawCall` value. `DrawDemoFrame` is the demo's draw phase, with three
  coloured squares.

Modelling choices:

- Floats are `real`. `inverse_lerp(0, 255, c)` is `c / 255` over the reals, with
  no clamping.
- `unsigned int` arithmetic is modelled with its wrap-around (`WrapU32`, modulo
  2^32), not excluded by a precondition. `square_count` wraps, and so does
  `square_count * 4`. The model proves that `offset + 1..3` never wrap, because
  the offset is always a multiple of 4. Every square numbered below 2^30 gets
  exactly the indices `[4k, 4k+1, 4k+2, 4k+1, 4k+2, 4k+3]`. Every index of every
  frame is in range, whatever its size. From square 2^30 on, the offsets wrap:
  those indices are still in range, but they name earlier squares' vertices.
  For example, square 2^30's first index is vertex 0 (`IndicesWrapAround`).
- The comment at `batch_renderer.h:54` lists the corners as "top left, top right,
  bottom right, bottom left". The code pushes bottom-left before bottom-right.
  The model follows the code: top-left, top-right, bottom-left, bottom-right.
- `glDrawElements`, `glBufferData` and `glClearColor` are not modelled as driver
  calls. Instead, `Render` returns the program, the uploaded data and the index
  count, and `Clear` returns the RGBA clear colour.

## Model

| member | source | states |
|---|---|---|
| `QuadLayout.NormalizeIsAffine` | batch_renderer.h:105-108 | a colour channel is scaled by 1/255: the result times 255 gives the channel back; it lies in [0, 1] exactly when the channel lies in [0, 255]; 0 maps to 0 and 255 to 1; there is no clamping |
| `QuadLayout.VertexFloatsLayout` | batch_renderer.h:99-109 | `push_vert` contributes exactly five floats: x and y unchanged, then the three channels, each of which gives the original channel back when multiplied by 255 |
| `QuadLayout.FrameVertices` | batch_renderer.h:53-58 | after n squares the vertex buffer holds exactly 20·n floats (4 vertices × 5 floats) |
| `QuadLayout.FrameIndices` | batch_renderer.h:60-71 | after n squares the index buffer holds exactly 6·n indices |
| `QuadLayout.FourPushes` | batch_renderer.h:55-58 | the four `push_vert` calls of `add_square`, taken one after another, append exactly the square's twenty floats |
| `QuadLayout.OffsetFromCounter` | batch_renderer.h:61 | the base offset `square_count * 4`, computed from a counter that has itself wrapped, is 4k modulo 2^32 |
| `QuadLayout.CounterIncrement` | batch_renderer.h:71 | `square_count++` on the wrapped counter gives the wrapped count of squares |
| `QuadLayout.OffsetAligned` | batch_renderer.h:61-69 | the base offset is a multiple of 4, so `offset+1`, `offset+2` and `offset+3` never exceed 2^32 − 1 |
| `QuadLayout.WrappedIndices` | batch_renderer.h:61-69 | the six indices pushed in `unsigned int` arithmetic from the wrapped counter are exactly `o, o+1, o+2, o+1, o+2, o+3` for the square's base offset o, with no wrap after the offset |
| `QuadLayout.FrameIndicesAt` | batch_renderer.h:61-69 | square k owns exactly `indices[6k..6k+6]`, and those are the six indices built from its own base offset |
| `QuadLayout.IndexPattern` | batch_renderer.h:61-69 | every square k < 2^30 has exactly the indices `[4k, 4k+1, 4k+2, 4k+1, 4k+2, 4k+3]`, however many squares follow it |
| `QuadLayout.IndicesInRange` | batch_renderer.h:61-71 | for every number n of squares, every index is below 4·n, the number of vertices, so no index points past the vertex data, even after the counter wraps |
| `QuadLayout.IndicesWrapAround` | batch_renderer.h:61 | with 2^30 + 1 squares the counter arithmetic wraps, and the last square's first index is 0 |
| `QuadLayout.FrameIndicesPrefix` | batch_renderer.h:63-69 | adding squares only appends indices: the buffer for n squares is a prefix of the buffer for any m ≥ n |
| `QuadLayout.FrameVerticesPrefix` | batch_renderer.h:102-108 | adding squares only appends vertex floats: the earlier buffer is a prefix of the later one |
| `QuadLayout.FrameVerticesAppend` | batch_renderer.h:55-58 | one more square appends exactly its own twenty floats to the vertex buffer |
| `QuadLayout.FrameVerticesSquare` | batch_renderer.h:55-58 | square k owns exactly `vertices[20k..20k+20]` |
| `QuadLayout.SquareVertexAt` | batch_renderer.h:54-58 | within a square's twenty floats, vertex c is corner c in the order top-left, top-right, bottom-left, bottom-right |
| `QuadLayout.FrameVertexAt` | batch_renderer.h:55-58 | vertex c of square k is `vertices[20k+5c..20k+5c+5]`. It holds the corner position, where (x, y), (x+size, y), (x, y−size) and (x+size, y−size) are corners 0 to 3, followed by the colour divided by 255 |
| `BatchRendering.BatchRenderer.constructor` | batch_renderer.h:13-33 | a new renderer starts with empty buffers, a zero counter and no squares |
| `BatchRendering.BatchRenderer.Clear` | batch_renderer.h:41-50 | from any state, both buffers become empty and the counter becomes 0; the framebuffer is cleared to (r, g, b, 1.0) |
| `BatchRendering.BatchRenderer.PushVert` | batch_renderer.h:99-109 | appends exactly the five floats of one vertex and changes no other field |
| `BatchRendering.BatchRenderer.AddSquare` | batch_renderer.h:53-72 | keeps the invariant; appends exactly the square's 20 floats and 6 indices without touching earlier entries; the indices are based at `square_count * 4` in `unsigned int` arithmetic; increments the counter modulo 2^32 |
| `BatchRendering.BatchRenderer.Render` | batch_renderer.h:74-89 | issues one draw with the program, the current vertex and index buffers, and a count of exactly the index-buffer length (6·n); every drawn index names an uploaded vertex, whatever the number of squares; nothing is modified |
| `BatchRendering.DrawDemoFrame` | main.cpp:84-100 | clear, three squares, render: one draw of 18 indices over 60 floats (12 vertices) with indices `0,1,2,1,2,3, 4,…,11`; the first (red) square's vertices are in the order top-left, top-right, bottom-left, bottom-right with colour (1, 0, 0) |
| `BatchRendering.RedSquareVertices` | main.cpp:87-90 | the red square at (x, 0) of size 0.1 contributes the vertices (x, 0), (x+0.1, 0), (x, −0.1), (x+0.1, −0.1), each with colour (1, 0, 0) |
| `BatchRendering.ThreeSquareIndices` | main.cpp:84-100 | a frame of three squares has the index buffer `0,1,2,1,2,3, 4,5,6,5,6,7, 8,9,10,9,10,11` |

## Left out

- OpenGL object management is not modelled. This covers creating, binding and deleting the VBO, EBO and VAO (batch_renderer.h:15-30, 35-39), and the vertex attribute layout. These are driver calls.
- The framebuffer clear (`glClearColor` and `glClear`) is not modelled as a driver call. `Clear` only returns the colour it would set.
- The uploads (`glBufferData`) and the draw (`glDrawElements`) are not modelled as driver calls. `Render` returns what they would receive.
- `shader->use()` is represented only by the program recorded in the `DrawCall`.
- The upload byte size `sizeof(pointer) * size()` (batch_renderer.h:80, 84) is not modelled. It only concerns the driver.
- Render: the index count passed to `glDrawElements` is narrowed from `size_t` to `GLsizei`. The model keeps it as an unbounded `nat`.
- Single-precision floats are not modelled. Positions, `pos.x + size`, `pos.y - size` and the division by 255 are exact real arithmetic. The conversion of `unsigned int` colour channels to `float` is exact in the model, although it rounds for channels above 2^24.
- The demo literals `0.1f`, `0.5f` and `-0.5f` are the exact reals 0.1, 0.5 and -0.5.
- DrawDemoFrame: the x offset `sin(glfwGetTime() * 2) * 0.2` is a parameter, because it depends on the clock. The rest of main.cpp is not part of this model: window setup, input, the compute round trip, logging and the debug callback are I/O.
- shader.h and compute.h are not part of this model. They read files and compile GLSL through the driver.
- `lerp` and `remap` in dan_math.h are not modelled. Only `inverse_lerp(0, 255, c)` is modelled, as `Normalize`.
- The destructor is not modelled. It only releases GPU handles.
