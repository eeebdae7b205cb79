/** The lens-distortion mesh of setupDistortion and the two draws of
    renderDistortion (src/ofxOpenVR.cpp). Each eye gets a 43 x 43 grid of
    vertices; each of its 42 x 42 cells becomes two triangles in a 16-bit
    (GLushort) index buffer. A vertex is identified by its eye and grid
    position; the positions and texture coordinates the runtime's
    ComputeDistortion gives it are left abstract. */
module LensMesh {
  import opened VrSdk

  const SegmentCountH: nat := 43
  const SegmentCountV: nat := 43
  /** Cells per row and per column of one eye's grid. */
  const Cells: nat := 42
  /** Vertices of one eye's grid, and the offset of the right eye's vertices. */
  const EyeVertexCount: nat := 1849
  /** Indices of one eye: 42 * 42 cells, two triangles of three indices each. */
  const EyeIndexCount: nat := 10584
  /** GLushort holds 0 .. 65535 and takes two bytes. */
  const GLushortModulus: nat := 0x1_0000
  const BytesPerIndex: nat := 2

  /** A vertex of the lens grid. */
  datatype LensVertex = LensVertex(eye: Eye, col: nat, row: nat)

  /** Conversion of an int to GLushort: wraps modulo 2^16. */
  function ToGLushort(v: int): (r: nat)
    ensures r < GLushortModulus
    ensures 0 <= v < GLushortModulus ==> r == v
  {
    v % GLushortModulus
  }

  function EyeNumber(eye: Eye): nat
  {
    if eye == EyeLeft then 0 else 1
  }

  // ---- vertices ----

  /** The i-th vertex pushed for an eye: rows of 43 vertices, row by row. */
  function GridVertex(eye: Eye, i: nat): LensVertex
  {
    LensVertex(eye, i % SegmentCountH, i / SegmentCountH)
  }

  /** The first n vertices pushed for an eye. */
  function EyeVertices(eye: Eye, n: nat): (r: seq<LensVertex>)
    ensures |r| == n
  {
    seq(n, i requires 0 <= i < n => GridVertex(eye, i))
  }

  /** The vertex array: the left eye's 43 x 43 grid, then the right eye's. */
  function LensVertices(): seq<LensVertex>
  {
    EyeVertices(EyeLeft, EyeVertexCount) + EyeVertices(EyeRight, EyeVertexCount)
  }

  /** The vertex array holds 2 * 43 * 43 vertices, and the vertex of eye e at
      column x, row y sits at e * 1849 + 43 * y + x. */
  lemma LensVertexAt(eye: Eye, y: nat, x: nat)
    requires y < SegmentCountV && x < SegmentCountH
    ensures |LensVertices()| == 2 * EyeVertexCount
    ensures LensVertices()[EyeVertexCount * EyeNumber(eye) + SegmentCountH * y + x] == LensVertex(eye, x, y)
  {
    var i := SegmentCountH * y + x;
    assert i % SegmentCountH == x && i / SegmentCountH == y;
    var left, right := EyeVertices(EyeLeft, EyeVertexCount), EyeVertices(EyeRight, EyeVertexCount);
    if eye == EyeLeft {
      assert (left + right)[i] == left[i];
    } else {
      assert (left + right)[EyeVertexCount + i] == right[i];
    }
  }

  // ---- indices ----

  /** The six indices of the cell at column x, row y: triangles (a, b, c)
      and (a, c, d) over its corners a = (x, y), b = (x+1, y),
      c = (x+1, y+1), d = (x, y+1), shifted by the eye's vertex offset. */
  function Quad(offset: nat, y: nat, x: nat): (r: seq<nat>)
    ensures |r| == 6
    ensures r[0] == r[3] && r[2] == r[4]
    ensures r[1] == r[0] + 1 && r[2] == r[5] + 1 && r[5] == r[0] + SegmentCountH
  {
    var a := SegmentCountH * y + x + offset;
    var b := SegmentCountH * y + x + 1 + offset;
    var c := (y + 1) * SegmentCountH + x + 1 + offset;
    var d := (y + 1) * SegmentCountH + x + offset;
    [a, b, c, a, c, d]
  }

  /** The corners of a cell of either eye fit in a GLushort, so the
      narrowing of setupDistortion never changes them. */
  lemma QuadFits(offset: nat, y: nat, x: nat)
    requires offset <= EyeVertexCount && y < Cells && x < Cells
    ensures SegmentCountH * y + x + offset < GLushortModulus
    ensures SegmentCountH * y + x + 1 + offset < GLushortModulus
    ensures (y + 1) * SegmentCountH + x + 1 + offset < GLushortModulus
    ensures (y + 1) * SegmentCountH + x + offset < GLushortModulus
  {
    assert (y + 1) * SegmentCountH <= Cells * SegmentCountH;
  }

  /** The p-th index pushed for an eye: cells row by row, 42 per row, six
      indices per cell. */
  function CellIndex(offset: nat, p: nat): nat
  {
    var cell := p / 6;
    Quad(offset, cell / Cells, cell % Cells)[p % 6]
  }

  /** The first n indices pushed for an eye. */
  function EyeIndices(offset: nat, n: nat): (r: seq<nat>)
    ensures |r| == n
  {
    seq(n, p requires 0 <= p < n => CellIndex(offset, p))
  }

  /** The index buffer: the left eye's cells, then the right eye's, six
      indices for each of the 42 x 42 cells of each eye. */
  function LensIndices(): (r: seq<nat>)
    ensures |r| == 2 * 6 * Cells * Cells
  {
    EyeIndices(0, EyeIndexCount) + EyeIndices(EyeVertexCount, EyeIndexCount)
  }

  /** The six indices of cell (x, y) are those of Quad, at 6 * (42 * y + x). */
  lemma CellIndexAt(offset: nat, y: nat, x: nat, k: nat)
    requires x < Cells && k < 6
    ensures CellIndex(offset, 6 * (Cells * y + x) + k) == Quad(offset, y, x)[k]
  {
    var p := 6 * (Cells * y + x) + k;
    assert p / 6 == Cells * y + x && p % 6 == k;
    assert (Cells * y + x) / Cells == y && (Cells * y + x) % Cells == x;
  }

  /** Six more indices that are the next six CellIndex values extend the
      first n indices to the first n + 6. */
  lemma EyeIndicesExtend(offset: nat, n: nat, q: seq<nat>)
    requires |q| == 6
    requires forall k :: 0 <= k < 6 ==> CellIndex(offset, n + k) == q[k]
    ensures EyeIndices(offset, n + 6) == EyeIndices(offset, n) + q
  {
    var lhs, rhs := EyeIndices(offset, n + 6), EyeIndices(offset, n) + q;
    forall i | 0 <= i < n + 6 ensures lhs[i] == rhs[i] {
      if n <= i {
        assert CellIndex(offset, n + (i - n)) == q[i - n];
      }
    }
  }

  /** Pushing cell (x, y) extends an eye's indices by that cell's Quad. */
  lemma EyeIndicesNextCell(offset: nat, y: nat, x: nat)
    requires x < Cells
    ensures EyeIndices(offset, 6 * (Cells * y + x) + 6) == EyeIndices(offset, 6 * (Cells * y + x)) + Quad(offset, y, x)
  {
    var n := 6 * (Cells * y + x);
    forall k | 0 <= k < 6 ensures CellIndex(offset, n + k) == Quad(offset, y, x)[k] {
      CellIndexAt(offset, y, x, k);
    }
    EyeIndicesExtend(offset, n, Quad(offset, y, x));
  }

  /** Every index of an eye's block lies in that eye's vertex range. */
  lemma CellIndexBounds(offset: nat, p: nat)
    requires p < EyeIndexCount
    ensures offset <= CellIndex(offset, p) < offset + EyeVertexCount
  {
    var cell := p / 6;
    assert cell < Cells * Cells;
    assert cell / Cells < Cells && cell % Cells < Cells;
  }

  /** The index buffer has 2 * 42 * 42 * 6 = 21168 entries; the first half
      addresses only the left eye's vertices 0 .. 1848, the second half only
      the right eye's 1849 .. 3697, so every index names one of the 3698
      vertices pushed, and every index fits in a GLushort. */
  lemma LensIndicesShape()
    ensures |LensIndices()| == 2 * EyeIndexCount
    ensures forall i :: 0 <= i < EyeIndexCount ==> LensIndices()[i] < EyeVertexCount
    ensures forall i :: EyeIndexCount <= i < 2 * EyeIndexCount ==>
      EyeVertexCount <= LensIndices()[i] < 2 * EyeVertexCount
    ensures forall i :: 0 <= i < |LensIndices()| ==> LensIndices()[i] < |LensVertices()|
    ensures forall i :: 0 <= i < |LensIndices()| ==> LensIndices()[i] < GLushortModulus
  {
    var L := LensIndices();
    forall i | 0 <= i < 2 * EyeIndexCount
      ensures i < EyeIndexCount ==> L[i] < EyeVertexCount
      ensures EyeIndexCount <= i ==> EyeVertexCount <= L[i] < 2 * EyeVertexCount
    {
      if i < EyeIndexCount {
        CellIndexBounds(0, i);
      } else {
        assert L[i] == EyeIndices(EyeVertexCount, EyeIndexCount)[i - EyeIndexCount];
        CellIndexBounds(EyeVertexCount, i - EyeIndexCount);
      }
    }
  }

  /** The six corners a cell's two triangles visit, in drawing order:
      (x,y)-(x+1,y)-(x+1,y+1) and (x,y)-(x+1,y+1)-(x,y+1). */
  function CellCorners(eye: Eye, y: nat, x: nat): (r: seq<LensVertex>)
    ensures |r| == 6
  {
    [ LensVertex(eye, x, y), LensVertex(eye, x + 1, y), LensVertex(eye, x + 1, y + 1),
      LensVertex(eye, x, y), LensVertex(eye, x + 1, y + 1), LensVertex(eye, x, y + 1) ]
  }

  /** Where cell (x, y) of an eye starts in the index buffer. */
  function CellStart(eye: Eye, y: nat, x: nat): nat
  {
    EyeIndexCount * EyeNumber(eye) + 6 * (Cells * y + x)
  }

  /** Entry p + k of the index buffer, for cell (x, y) of an eye, is entry k
      of that cell's Quad over the eye's vertex offset. */
  lemma LensIndexOfCell(eye: Eye, y: nat, x: nat, k: nat)
    requires y < Cells && x < Cells && k < 6
    ensures CellStart(eye, y, x) + k < |LensIndices()|
    ensures LensIndices()[CellStart(eye, y, x) + k]
      == Quad(EyeVertexCount * EyeNumber(eye), y, x)[k]
  {
    var q := 6 * (Cells * y + x);
    var offset := EyeVertexCount * EyeNumber(eye);
    CellIndexAt(offset, y, x, k);
    if eye == EyeRight {
      assert LensIndices()[EyeIndexCount + q + k] == EyeIndices(EyeVertexCount, EyeIndexCount)[q + k];
    }
  }

  /** Entry k of a cell's Quad names the cell's k-th corner in the vertex buffer. */
  lemma QuadCorner(eye: Eye, y: nat, x: nat, k: nat)
    requires y < Cells && x < Cells && k < 6
    ensures Quad(EyeVertexCount * EyeNumber(eye), y, x)[k] < |LensVertices()|
    ensures LensVertices()[Quad(EyeVertexCount * EyeNumber(eye), y, x)[k]] == CellCorners(eye, y, x)[k]
  {
    var offset := EyeVertexCount * EyeNumber(eye);
    var a := SegmentCountH * y + x + offset;
    var d := SegmentCountH * (y + 1) + x + offset;
    assert Quad(offset, y, x) == [a, a + 1, d + 1, a, d + 1, d];
    if k == 0 || k == 3 {
      LensVertexAt(eye, y, x);
    } else if k == 1 {
      LensVertexAt(eye, y, x + 1);
    } else if k == 2 || k == 4 {
      LensVertexAt(eye, y + 1, x + 1);
    } else {
      LensVertexAt(eye, y + 1, x);
    }
  }

  /** Each cell of each eye is drawn as two triangles over that eye's own grid
      vertices: index k of the six at 6 * (42 * y + x) in the eye's half of
      the buffer names the cell's k-th corner. */
  lemma LensCellTriangles(eye: Eye, y: nat, x: nat, k: nat)
    requires y < Cells && x < Cells && k < 6
    ensures CellStart(eye, y, x) + k < |LensIndices()|
    ensures LensIndices()[CellStart(eye, y, x) + k] < |LensVertices()|
    ensures LensVertices()[LensIndices()[CellStart(eye, y, x) + k]] == CellCorners(eye, y, x)[k]
  {
    LensIndexOfCell(eye, y, x, k);
    QuadCorner(eye, y, x, k);
  }

  // ---- the loops of setupDistortion ----

  /** One eye's vertex loop: rows y = 0 .. 42, columns x = 0 .. 42. */
  method PushEyeVertices(verts: seq<LensVertex>, eye: Eye) returns (verts': seq<LensVertex>)
    ensures verts' == verts + EyeVertices(eye, EyeVertexCount)
  {
    verts' := verts;
    var y := 0;
    while y < SegmentCountV
      invariant 0 <= y <= SegmentCountV
      invariant verts' == verts + EyeVertices(eye, SegmentCountH * y)
    {
      var x := 0;
      while x < SegmentCountH
        invariant 0 <= x <= SegmentCountH
        invariant verts' == verts + EyeVertices(eye, SegmentCountH * y + x)
      {
        var n := SegmentCountH * y + x;
        assert GridVertex(eye, n) == LensVertex(eye, x, y) by {
          assert n % SegmentCountH == x && n / SegmentCountH == y;
        }
        assert EyeVertices(eye, n + 1) == EyeVertices(eye, n) + [GridVertex(eye, n)];
        verts' := verts' + [LensVertex(eye, x, y)];
        x := x + 1;
      }
      y := y + 1;
    }
  }

  /** The vertex array setupDistortion uploads. */
  method BuildLensVertices() returns (verts: seq<LensVertex>)
    ensures verts == LensVertices()
  {
    verts := PushEyeVertices([], EyeLeft);
    verts := PushEyeVertices(verts, EyeRight);
  }

  /** One eye's index loop: cells y = 0 .. 41, x = 0 .. 41, each index
      computed in int and narrowed to GLushort. */
  method PushEyeIndices(indices: seq<nat>, offset: nat) returns (indices': seq<nat>)
    requires offset <= EyeVertexCount
    ensures indices' == indices + EyeIndices(offset, EyeIndexCount)
  {
    indices' := indices;
    var y := 0;
    while y < SegmentCountV - 1
      invariant 0 <= y <= Cells
      invariant indices' == indices + EyeIndices(offset, 6 * Cells * y)
    {
      var x := 0;
      while x < SegmentCountH - 1
        invariant 0 <= x <= Cells
        invariant indices' == indices + EyeIndices(offset, 6 * (Cells * y + x))
      {
        var a := ToGLushort(SegmentCountH * y + x + offset);
        var b := ToGLushort(SegmentCountH * y + x + 1 + offset);
        var c := ToGLushort((y + 1) * SegmentCountH + x + 1 + offset);
        var d := ToGLushort((y + 1) * SegmentCountH + x + offset);
        var n := 6 * (Cells * y + x);
        QuadFits(offset, y, x);
        EyeIndicesNextCell(offset, y, x);
        assert [a, b, c] + [a, c, d] == Quad(offset, y, x);
        indices' := indices' + [a, b, c] + [a, c, d];
        assert 6 * (Cells * y + (x + 1)) == n + 6;
        x := x + 1;
      }
      y := y + 1;
    }
  }

  /** The index buffer setupDistortion uploads; the narrowing to GLushort
      never changes a value. */
  method BuildLensIndices() returns (indices: seq<nat>)
    ensures indices == LensIndices()
  {
    indices := PushEyeIndices([], 0);
    indices := PushEyeIndices(indices, EyeVertexCount);
  }

  // ---- renderDistortion ----

  /** One glDrawElements call: the texture bound (the eye's resolved
      image), the number of indices and the byte offset into the buffer. */
  datatype Draw = Draw(texture: Eye, count: nat, byteOffset: nat)

  /** The two draws renderDistortion issues for an index buffer of
      `indexSize` entries: size/2 indices from byte 0 with the left eye's
      texture, then size/2 indices from byte offset `indexSize` with the
      right eye's. */
  function DistortionDraws(indexSize: nat): (draws: seq<Draw>)
    ensures |draws| == 2
  {
    [Draw(EyeLeft, indexSize / 2, 0), Draw(EyeRight, indexSize / 2, indexSize)]
  }

  /** The indices one draw reads, when its byte offset is a whole index. */
  function DrawnIndices(buffer: seq<nat>, d: Draw): seq<nat>
    requires d.byteOffset % BytesPerIndex == 0 && d.byteOffset / BytesPerIndex + d.count <= |buffer|
  {
    buffer[d.byteOffset / BytesPerIndex .. d.byteOffset / BytesPerIndex + d.count]
  }

  /** For an even-sized buffer, the second draw's byte offset `indexSize` is
      exactly where the first draw ends (indexSize / 2 indices of two bytes),
      and the two draws together read every index once. */
  lemma DistortionDrawsTile(buffer: seq<nat>)
    requires |buffer| % 2 == 0
    ensures var draws := DistortionDraws(|buffer|);
      && draws[1].byteOffset == (draws[0].byteOffset / BytesPerIndex + draws[0].count) * BytesPerIndex
      && DrawnIndices(buffer, draws[0]) + DrawnIndices(buffer, draws[1]) == buffer
  {
    var h := |buffer| / 2;
    assert buffer[..h] + buffer[h..] == buffer;
  }

  /** On the lens index buffer, the left-eye draw reads exactly the left
      eye's cells and the right-eye draw exactly the right eye's. */
  lemma DistortionDrawsSplitEyes()
    ensures var draws := DistortionDraws(|LensIndices()|);
      && draws[0].texture == EyeLeft && draws[1].texture == EyeRight
      && DrawnIndices(LensIndices(), draws[0]) == EyeIndices(0, EyeIndexCount)
      && DrawnIndices(LensIndices(), draws[1]) == EyeIndices(EyeVertexCount, EyeIndexCount)
  {
    var L := LensIndices();
    assert L[..EyeIndexCount] == EyeIndices(0, EyeIndexCount);
    assert L[EyeIndexCount..2 * EyeIndexCount] == EyeIndices(EyeVertexCount, EyeIndexCount);
  }

}
