/**
 * The crop on the four-vertex, four-edge geometry of the filter's own test
 * cases: vertices (0, 0, 0), (1, 2, -2), (3, 1, -2), (2, -1, 0), edges
 * 0-1, 1-2, 2-3, 3-0, one vertex array and two edge arrays.
 */
module CropEdgeGeometryExamples {
  import opened Wrappers
  import opened EdgeClip
  import opened MaskedCopy
  import opened CropEdgeGeometry

  const Vertices: seq<Vec3> := [Vec3(0.0, 0.0, 0.0), Vec3(1.0, 2.0, -2.0), Vec3(3.0, 1.0, -2.0), Vec3(2.0, -1.0, 0.0)]
  const Edges: seq<Edge> := [(0, 1), (1, 2), (2, 3), (3, 0)]
  const VertexArrays: seq<seq<int>> := [[8, 3, 893, 327]]
  const EdgeArrays: seq<seq<int>> := [[12, 56, 2, 91], [24, 124, 352, 786]]

  /** The box x in [-0.5, 1.5], y in [-0.5, 2.5], Z not selected. */
  function XYBox(): BoundingBox
  {
    MakeBoundingBox(true, true, false, [-0.5, -0.5, -0.5], [1.5, 2.5, 0.5])
  }

  /** Against XYBox the first two vertices are inside and the last two outside:
      edge 0 is inside, edges 1 and 3 cross the boundary and edge 2 is outside. */
  lemma XYBoxClassification(behavior: BoundaryIntersectionBehavior)
    ensures var input := CropInput(Vertices, Edges, XYBox(), behavior);
      && input.AllValid(4)
      && input.Inside(0) && input.Inside(1) && !input.Inside(2) && !input.Inside(3)
      && input.InsideCount(0) == 2 && input.Crossing(1) && input.InsideCount(2) == 0 && input.Crossing(3)
      && input.InsideEnd(1) == 1 && input.OutsideEnd(1) == 2
      && input.InsideEnd(3) == 0 && input.OutsideEnd(3) == 3
  {
    var input := CropInput(Vertices, Edges, XYBox(), behavior);
    assert input.ValidEdge(0) && input.ValidEdge(1) && input.ValidEdge(2) && input.ValidEdge(3);
  }

  /** Every endpoint is one of the four vertices. */
  lemma EdgesEndpointsIn()
    ensures EndpointsIn(Edges, 4)
  {
    forall j | 0 <= j < 4 ensures Edges[j].0 < 4 && Edges[j].1 < 4 {
    }
  }

  /** No edge raises an error unless crossing edges are errors. */
  lemma NoErrorUnlessFiltered(behavior: BoundaryIntersectionBehavior)
    requires behavior != FilterError
    ensures CropInput(Vertices, Edges, XYBox(), behavior).FirstError(4).None?
  {
    var input := CropInput(Vertices, Edges, XYBox(), behavior);
    XYBoxClassification(behavior);
    assert input.EdgeErrors() == [None, None, None, None];
  }

  /** The element itself when its mask entry is set, nothing otherwise. */
  function Pick<T>(x: T, keep: bool): seq<T>
  {
    if keep then [x] else []
  }

  /** Compaction of a store by its last entry, as Compact is defined. */
  lemma CompactLast<T>(src: seq<T>, mask: seq<bool>)
    requires |src| == |mask| > 0
    ensures Compact(src, mask) == Compact(src[..|src| - 1], mask[..|mask| - 1]) + Pick(src[|src| - 1], mask[|mask| - 1])
  {
  }

  /** Compaction of a four-tuple store, written out. */
  lemma CompactFour<T>(src: seq<T>, mask: seq<bool>)
    requires |src| == 4 && |mask| == 4
    ensures Compact(src, mask) == Pick(src[0], mask[0]) + Pick(src[1], mask[1]) + Pick(src[2], mask[2]) + Pick(src[3], mask[3])
  {
    var s3, m3 := src[..3], mask[..3];
    var s2, m2 := s3[..2], m3[..2];
    var s1, m1 := s2[..1], m2[..1];
    CompactLast(src, mask);
    CompactLast(s3, m3);
    CompactLast(s2, m2);
    CompactLast(s1, m1);
    assert s1[..0] == [];
  }

  /** The ranks of the four entries of a four-entry mask. */
  lemma RanksOfFour(mask: seq<bool>)
    requires |mask| == 4
    ensures CountKept(mask[..0]) == 0
    ensures CountKept(mask[..1]) == |Pick(0, mask[0])|
    ensures CountKept(mask[..2]) == |Pick(0, mask[0])| + |Pick(0, mask[1])|
    ensures CountKept(mask[..3]) == |Pick(0, mask[0])| + |Pick(0, mask[1])| + |Pick(0, mask[2])|
  {
    CountKeptStep(mask, 0);
    CountKeptStep(mask, 1);
    CountKeptStep(mask, 2);
  }

  /** The masks of the "Ignore Edges" run: only edge 0-1 and its vertices. */
  lemma IgnoreEdgesMasks()
    ensures var input := CropInput(Vertices, Edges, XYBox(), IgnoreEdge);
      && input.AllValid(4)
      && input.KeptMask() == [true, false, false, false]
      && input.Referenced() == [true, true, false, false]
      && input.Positions() == Vertices
  {
    var input := CropInput(Vertices, Edges, XYBox(), IgnoreEdge);
    XYBoxClassification(IgnoreEdge);
    assert input.ReferencedAfter(1) == [true, true, false, false];
    assert input.InterpolatedAfter(4) == map[];
  }

  /** The "Ignore Edges" test: only vertices 0 and 1 are kept, unmoved. */
  lemma IgnoreEdgesExampleVertices()
    ensures var input := CropInput(Vertices, Edges, XYBox(), IgnoreEdge);
      && input.FirstError(4).None?
      && input.AllValid(4)
      && input.DestVertices() == [Vec3(0.0, 0.0, 0.0), Vec3(1.0, 2.0, -2.0)]
  {
    NoErrorUnlessFiltered(IgnoreEdge);
    IgnoreEdgesMasks();
    CompactFour(Vertices, [true, true, false, false]);
  }

  /** The "Ignore Edges" test: only edge 0-1 survives. */
  lemma IgnoreEdgesExampleEdges()
    ensures var input := CropInput(Vertices, Edges, XYBox(), IgnoreEdge);
      && input.AllValid(4)
      && input.DestEdges() == [(0, 1)]
  {
    IgnoreEdgesMasks();
    RanksOfFour([true, true, false, false]);
    EdgesEndpointsIn();
    CompactFour(RankedEdges(Edges, [true, true, false, false]), [true, false, false, false]);
  }

  /** The attribute tuples the "Ignore Edges" masks keep: 8 and 3 of the vertex
      array, 12 and 24 of the edge arrays. */
  lemma IgnoreEdgesArrays()
    ensures CompactAll(VertexArrays, [true, true, false, false]) == [[8, 3]]
    ensures CompactAll(EdgeArrays, [true, false, false, false]) == [[12], [24]]
  {
    var vertexMask, edgeMask := [true, true, false, false], [true, false, false, false];
    CompactFour(VertexArrays[0], vertexMask);
    CompactFour(EdgeArrays[0], edgeMask);
    CompactFour(EdgeArrays[1], edgeMask);
    assert CompactAll(VertexArrays, vertexMask)[0] == [8, 3];
    assert CompactAll(EdgeArrays, edgeMask)[0] == [12] && CompactAll(EdgeArrays, edgeMask)[1] == [24];
  }

  /** The two interpolated positions of the "Interpolate Outside Vertices" test:
      edge 1-2 leaves the box at x = 1.5 (t = 0.25), edge 3-0 at y = -0.5 (t = 0.5). */
  lemma InterpolatedPositions()
    ensures var input := CropInput(Vertices, Edges, XYBox(), InterpolateOutsideVertex);
      && input.AllValid(4) && input.Crossing(1) && input.Crossing(3)
      && input.Interpolated(1) == Vec3(1.5, 1.75, -2.0)
      && input.Interpolated(3) == Vec3(1.0, -0.5, 0.0)
  {
    var input := CropInput(Vertices, Edges, XYBox(), InterpolateOutsideVertex);
    XYBoxClassification(InterpolateOutsideVertex);
    var box := XYBox();
    assert ClipParameters(Vertices[1], Vertices[2], box) == (0.0, 0.25);
    assert ClipParameters(Vertices[0], Vertices[3], box) == (0.0, 0.5);
  }

  /** The masks of the "Interpolate Outside Vertices" run: edge 2-3 is dropped,
      every vertex is referenced and vertices 2 and 3 are moved. */
  lemma InterpolateMasks()
    ensures var input := CropInput(Vertices, Edges, XYBox(), InterpolateOutsideVertex);
      && input.AllValid(4)
      && input.KeptMask() == [true, true, false, true]
      && input.Referenced() == [true, true, true, true]
      && input.Positions() == [Vec3(0.0, 0.0, 0.0), Vec3(1.0, 2.0, -2.0), Vec3(1.5, 1.75, -2.0), Vec3(1.0, -0.5, 0.0)]
  {
    var input := CropInput(Vertices, Edges, XYBox(), InterpolateOutsideVertex);
    XYBoxClassification(InterpolateOutsideVertex);
    InterpolatedPositions();
    assert input.ReferencedAfter(2) == [true, true, true, false];
    assert input.InterpolatedAfter(4) == map[2 := Vec3(1.5, 1.75, -2.0), 3 := Vec3(1.0, -0.5, 0.0)];
  }

  /** The "Interpolate Outside Vertices" test: every vertex is kept, vertex 2
      moved to (1.5, 1.75, -2) and vertex 3 to (1, -0.5, 0). */
  lemma InterpolateExampleVertices()
    ensures var input := CropInput(Vertices, Edges, XYBox(), InterpolateOutsideVertex);
      && input.FirstError(4).None?
      && input.AllValid(4)
      && input.DestVertices() == [Vec3(0.0, 0.0, 0.0), Vec3(1.0, 2.0, -2.0), Vec3(1.5, 1.75, -2.0), Vec3(1.0, -0.5, 0.0)]
  {
    NoErrorUnlessFiltered(InterpolateOutsideVertex);
    InterpolateMasks();
    CompactKeepsAll([Vec3(0.0, 0.0, 0.0), Vec3(1.0, 2.0, -2.0), Vec3(1.5, 1.75, -2.0), Vec3(1.0, -0.5, 0.0)], [true, true, true, true]);
  }

  /** The "Interpolate Outside Vertices" test: edges 0-1, 1-2 and 3-0 survive,
      with their vertex indices unchanged. */
  lemma InterpolateExampleEdges()
    ensures var input := CropInput(Vertices, Edges, XYBox(), InterpolateOutsideVertex);
      && input.AllValid(4)
      && input.DestEdges() == [(0, 1), (1, 2), (3, 0)]
  {
    InterpolateMasks();
    EdgesEndpointsIn();
    RankedEdgesAllReferenced(Edges, [true, true, true, true]);
    CompactFour(Edges, [true, true, false, true]);
  }

  /** The attribute tuples the "Interpolate Outside Vertices" masks keep: the
      whole vertex array, and the edge tuples of all but edge 2-3. */
  lemma InterpolateArrays()
    ensures CompactAll(VertexArrays, [true, true, true, true]) == VertexArrays
    ensures CompactAll(EdgeArrays, [true, true, false, true]) == [[12, 56, 91], [24, 124, 786]]
  {
    var vertexMask, edgeMask := [true, true, true, true], [true, true, false, true];
    CompactFour(VertexArrays[0], vertexMask);
    CompactFour(EdgeArrays[0], edgeMask);
    CompactFour(EdgeArrays[1], edgeMask);
    assert CompactAll(VertexArrays, vertexMask)[0] == VertexArrays[0];
    assert CompactAll(EdgeArrays, edgeMask)[0] == [12, 56, 91] && CompactAll(EdgeArrays, edgeMask)[1] == [24, 124, 786];
  }

  /** The "Filter Error" test: under FilterError, cropping X to [0.5, 1.5],
      Y to [0.5, 2] or Z to [-0.5, 0.5] alone makes edge 0-1 cross the
      boundary, and the crop stops there with OutsideVertexError (-1221). */
  lemma FilterErrorExample(cropX: bool, cropY: bool, cropZ: bool)
    requires (cropX && !cropY && !cropZ) || (!cropX && cropY && !cropZ) || (!cropX && !cropY && cropZ)
    ensures var box := MakeBoundingBox(cropX, cropY, cropZ, [0.5, 0.5, -0.5], [1.5, 2.0, 0.5]);
      var input := CropInput(Vertices, Edges, box, FilterError);
      && input.FirstError(4) == Some(OutsideVertexError(0))
      && input.FirstError(4).value.Code() == -1221
  {
    var box := MakeBoundingBox(cropX, cropY, cropZ, [0.5, 0.5, -0.5], [1.5, 2.0, 0.5]);
    var input := CropInput(Vertices, Edges, box, FilterError);
    assert input.ValidEdge(0) && input.Crossing(0);
    assert input.EdgeErrors()[0] == Some(OutsideVertexError(0));
    FirstOfIsFirst(input.EdgeErrors(), 4);
  }
}
