/**
 * The edge-geometry crop (CropEdgeGeometry::operator()): every edge is tested
 * against the crop box; edges with both endpoints inside are kept, edges with
 * both outside are dropped, and an edge crossing the boundary is, according to
 * the boundary-intersection behaviour, kept with its outside vertex moved onto
 * the box, dropped, or reported as an error. The kept edges, the vertices they
 * reference and both attribute matrices are then copied, compacted, into the
 * destination geometry.
 */
module CropEdgeGeometry {
  import opened Wrappers
  import opened EdgeClip
  import opened MaskedCopy

  /** How an edge with exactly one endpoint inside the box is treated
      (ordinals 0, 1 and 2 of the source's enumeration). */
  datatype BoundaryIntersectionBehavior = InterpolateOutsideVertex | IgnoreEdge | FilterError

  /** The errors the crop itself reports. */
  datatype CropError =
    | InvalidVertexIndex(position: nat, value: nat)
    | OutsideVertexError(edge: nat)
    | InvalidVertexMapping
  {
    /** The error code of each error (ErrorCodes). */
    function Code(): int
    {
      match this
      case InvalidVertexIndex(_, _) => -1220
      case OutsideVertexError(_) => -1221
      case InvalidVertexMapping => -1222
    }
  }

  /** An edge as the pair of vertex indices the edge list stores for it. */
  type Edge = (nat, nat)

  /** The vertex a new tuple of the vertex list holds before it is written. */
  const Origin: Vec3 := Vec3(0.0, 0.0, 0.0)

  /** The edge a new tuple of the edge list holds before it is written. */
  const NoEdge: Edge := (0, 0)

  /** What the crop reads: the source vertex and edge lists, the crop box and
      the behaviour chosen for boundary-crossing edges. */
  datatype CropInput = CropInput(vertices: seq<Vec3>, edges: seq<Edge>, box: BoundingBox, behavior: BoundaryIntersectionBehavior)
  {
    /** Both endpoints of edge j are indices of existing vertices. */
    predicate ValidEdge(j: nat)
      requires j < |edges|
    {
      edges[j].0 < |vertices| && edges[j].1 < |vertices|
    }

    predicate AllValid(k: nat)
      requires k <= |edges|
    {
      forall j :: 0 <= j < k ==> ValidEdge(j)
    }

    predicate Inside(v: nat)
      requires v < |vertices|
    {
      IsInside(vertices[v], box)
    }

    /** How many endpoints of edge j are inside the box. */
    function InsideCount(j: nat): nat
      requires j < |edges| && ValidEdge(j)
    {
      (if Inside(edges[j].0) then 1 else 0) + (if Inside(edges[j].1) then 1 else 0)
    }

    /** Exactly one endpoint of edge j is inside the box. */
    predicate Crossing(j: nat)
      requires j < |edges| && ValidEdge(j)
    {
      InsideCount(j) == 1
    }

    /** Edge j survives the crop: both endpoints inside, or it crosses the
        boundary and crossing edges are not ignored. */
    predicate Kept(j: nat)
      requires j < |edges| && ValidEdge(j)
    {
      InsideCount(j) == 2 || (InsideCount(j) == 1 && behavior != IgnoreEdge)
    }

    /** The inside endpoint of a crossing edge (the second one when it is inside). */
    function InsideEnd(j: nat): nat
      requires j < |edges| && ValidEdge(j)
    {
      if Inside(edges[j].1) then edges[j].1 else edges[j].0
    }

    /** The outside endpoint of a crossing edge. */
    function OutsideEnd(j: nat): nat
      requires j < |edges| && ValidEdge(j)
    {
      if Inside(edges[j].1) then edges[j].0 else edges[j].1
    }

    /** The position the outside endpoint of crossing edge j is moved to. */
    function Interpolated(j: nat): (p: Vec3)
      requires j < |edges| && ValidEdge(j) && Crossing(j)
      ensures IsInside(p, box)
    {
      InterpolateFromInside(vertices[InsideEnd(j)], vertices[OutsideEnd(j)], box);
      EdgeClip.InterpolateOutsideVertex(vertices[InsideEnd(j)], vertices[OutsideEnd(j)], box)
    }

    /** The error edge j raises when the loop reaches it, if any: an endpoint
        that is not a vertex index, reported at its position 2j or 2j + 1 in the
        flat edge list, or a boundary-crossing edge under FilterError. */
    function EdgeError(j: nat): Option<CropError>
      requires j < |edges|
    {
      if edges[j].0 >= |vertices| then Some(InvalidVertexIndex(2 * j, edges[j].0))
      else if edges[j].1 >= |vertices| then Some(InvalidVertexIndex(2 * j + 1, edges[j].1))
      else if behavior == FilterError && Crossing(j) then Some(OutsideVertexError(j))
      else None
    }

    /** The error each edge raises when the loop reaches it, in edge order. */
    function EdgeErrors(): (errors: seq<Option<CropError>>)
      ensures |errors| == |edges|
    {
      seq(|edges|, j requires 0 <= j < |edges| => EdgeError(j))
    }

    /** The error the loop over the first k edges stops with, if any. */
    function FirstError(k: nat): Option<CropError>
      requires k <= |edges|
    {
      FirstOf(EdgeErrors(), k)
    }

    /** The edge mask after the first k edges: the kept ones among them are set. */
    function MaskAfter(k: nat): (mask: seq<bool>)
      requires k <= |edges| && AllValid(k)
      ensures |mask| == |edges|
    {
      seq(|edges|, j requires 0 <= j < |edges| => j < k && Kept(j))
    }

    /** The edge mask: which edges survive. */
    function KeptMask(): (mask: seq<bool>)
      requires AllValid(|edges|)
    {
      MaskAfter(|edges|)
    }

    /** The vertex mask after the first k edges: the endpoints of the kept edges are set. */
    function ReferencedAfter(k: nat): (referenced: seq<bool>)
      requires k <= |edges| && AllValid(k)
      ensures |referenced| == |vertices|
    {
      if k == 0 then seq(|vertices|, _ => false)
      else
        var r := ReferencedAfter(k - 1);
        if Kept(k - 1) then r[edges[k - 1].0 := true][edges[k - 1].1 := true] else r
    }

    /** The interpolated positions after the first k edges, keyed by the outside
        vertex; a later crossing edge overwrites an earlier one's entry. */
    function InterpolatedAfter(k: nat): map<nat, Vec3>
      requires k <= |edges| && AllValid(k)
    {
      if k == 0 then map[]
      else
        var m := InterpolatedAfter(k - 1);
        if behavior == InterpolateOutsideVertex && Crossing(k - 1) then m[OutsideEnd(k - 1) := Interpolated(k - 1)] else m
    }

    function Referenced(): seq<bool>
      requires AllValid(|edges|)
    {
      ReferencedAfter(|edges|)
    }

    /** The position written for each source vertex: its interpolated position
        when it has one, its own position otherwise. */
    function Positions(): seq<Vec3>
      requires AllValid(|edges|)
    {
      PositionsOf(vertices, InterpolatedAfter(|edges|), behavior)
    }

    /** The destination vertex list: the referenced vertices, in source order. */
    function DestVertices(): seq<Vec3>
      requires AllValid(|edges|)
    {
      Compact(Positions(), Referenced())
    }

    /** The destination edge list: the kept edges, in source order, each endpoint
        replaced by its index among the referenced vertices. */
    function DestEdges(): seq<Edge>
      requires AllValid(|edges|)
    {
      assert EndpointsIn(edges, |vertices|) by {
        forall j | 0 <= j < |edges| ensures edges[j].0 < |vertices| && edges[j].1 < |vertices| {
          assert ValidEdge(j);
        }
      }
      Compact(RankedEdges(edges, Referenced()), KeptMask())
    }
  }

  function PositionsOf(vertices: seq<Vec3>, interpolated: map<nat, Vec3>, behavior: BoundaryIntersectionBehavior): (p: seq<Vec3>)
    ensures |p| == |vertices|
  {
    seq(|vertices|, i requires 0 <= i < |vertices| =>
      if behavior == InterpolateOutsideVertex && i in interpolated then interpolated[i] else vertices[i])
  }

  /** The old-to-new vertex index map: a referenced vertex's rank among the
      referenced vertices, -1 for a vertex that is dropped. */
  function VertexMapping(referenced: seq<bool>): (mapping: seq<int>)
    ensures |mapping| == |referenced|
  {
    seq(|referenced|, i requires 0 <= i < |referenced| => if referenced[i] then CountKept(referenced[..i]) else -1)
  }

  /** The vertex map after the first i vertices: those among them that are
      referenced have their rank, every other entry is still -1. */
  function MappingAfter(referenced: seq<bool>, i: nat): (mapping: seq<int>)
    requires i <= |referenced|
    ensures |mapping| == |referenced|
  {
    seq(|referenced|, v requires 0 <= v < |referenced| => if v < i && referenced[v] then CountKept(referenced[..v]) else -1)
  }

  lemma MappingStep(referenced: seq<bool>, i: nat)
    requires i < |referenced|
    ensures MappingAfter(referenced, i + 1)
      == if referenced[i] then MappingAfter(referenced, i)[i := CountKept(referenced[..i])] else MappingAfter(referenced, i)
  {
  }

  /** A vertex maps to -1 exactly when it is dropped; a referenced vertex maps to
      an index of the destination vertex list, and referenced vertices map in
      increasing order, so no two of them share an index. */
  lemma MappedIffReferenced(referenced: seq<bool>, v: nat, w: nat)
    requires v < |referenced| && w < |referenced|
    ensures VertexMapping(referenced)[v] == -1 <==> !referenced[v]
    ensures referenced[v] ==> 0 <= VertexMapping(referenced)[v] < CountKept(referenced)
    ensures referenced[v] && referenced[w] && v < w ==> VertexMapping(referenced)[v] < VertexMapping(referenced)[w]
  {
    if referenced[v] {
      RankInRange(referenced, v);
      if v < w {
        RankIncreasing(referenced, v, w);
      }
    }
  }

  /** Every endpoint of every edge is a vertex index. */
  predicate EndpointsIn(edges: seq<Edge>, n: nat)
  {
    forall j :: 0 <= j < |edges| ==> edges[j].0 < n && edges[j].1 < n
  }

  /** Each edge with its endpoints replaced by their ranks among the referenced vertices. */
  function RankedEdges(edges: seq<Edge>, referenced: seq<bool>): (r: seq<Edge>)
    requires EndpointsIn(edges, |referenced|)
    ensures |r| == |edges|
  {
    seq(|edges|, j requires 0 <= j < |edges| => (CountKept(referenced[..edges[j].0]), CountKept(referenced[..edges[j].1])))
  }

  /** With every vertex referenced, no edge is renumbered. */
  lemma RankedEdgesAllReferenced(edges: seq<Edge>, referenced: seq<bool>)
    requires EndpointsIn(edges, |referenced|) && forall v :: 0 <= v < |referenced| ==> referenced[v]
    ensures RankedEdges(edges, referenced) == edges
  {
    forall j | 0 <= j < |edges| ensures RankedEdges(edges, referenced)[j] == edges[j] {
      CountKeptAll(referenced[..edges[j].0]);
      CountKeptAll(referenced[..edges[j].1]);
    }
  }

  /** Every endpoint of a kept edge is a referenced vertex. */
  predicate EndpointsReferenced(edges: seq<Edge>, mask: seq<bool>, referenced: seq<bool>)
    requires |mask| == |edges| && EndpointsIn(edges, |referenced|)
  {
    EndpointsReferencedBefore(edges, mask, referenced, |edges|)
  }

  /** Every endpoint of a kept edge among the first i is a referenced vertex. */
  predicate EndpointsReferencedBefore(edges: seq<Edge>, mask: seq<bool>, referenced: seq<bool>, i: nat)
    requires i <= |mask| == |edges| && EndpointsIn(edges, |referenced|)
  {
    forall j :: 0 <= j < i && mask[j] ==> referenced[edges[j].0] && referenced[edges[j].1]
  }

  lemma EndpointsReferencedStep(edges: seq<Edge>, mask: seq<bool>, referenced: seq<bool>, i: nat)
    requires i < |mask| == |edges| && EndpointsIn(edges, |referenced|)
    requires EndpointsReferencedBefore(edges, mask, referenced, i)
    requires mask[i] ==> referenced[edges[i].0] && referenced[edges[i].1]
    ensures EndpointsReferencedBefore(edges, mask, referenced, i + 1)
  {
  }

  /** The state the edge loop hands on: the edge mask, the vertex mask and the
      interpolated positions of outside vertices. */
  datatype EdgeScan = EdgeScan(edgesMask: seq<bool>, vertexReferenced: seq<bool>, interpolated: map<nat, Vec3>)

  // ---------------------------------------------------------------------------
  // The edge loop

  /** The first present entry among the first k, if any: the error a loop
      that stops at the first failing step reports after k steps. */
  function FirstOf<E>(outcomes: seq<Option<E>>, k: nat): Option<E>
    requires k <= |outcomes|
  {
    if k == 0 then None
    else if FirstOf(outcomes, k - 1).Some? then FirstOf(outcomes, k - 1)
    else outcomes[k - 1]
  }

  /** Once the loop has stopped with an error, further steps do not change it. */
  lemma {:induction false} FirstOfStays<E>(outcomes: seq<Option<E>>, k: nat, k': nat)
    requires k <= k' <= |outcomes| && FirstOf(outcomes, k).Some?
    ensures FirstOf(outcomes, k') == FirstOf(outcomes, k)
    decreases k' - k
  {
    if k < k' {
      FirstOfStays(outcomes, k, k' - 1);
    }
  }

  /** The loop reports the first present entry, and nothing exactly when every
      entry is absent. */
  lemma {:induction false} FirstOfIsFirst<E>(outcomes: seq<Option<E>>, k: nat)
    requires k <= |outcomes|
    ensures FirstOf(outcomes, k).None? <==> forall j :: 0 <= j < k ==> outcomes[j].None?
    ensures FirstOf(outcomes, k).Some? ==>
      exists j :: 0 <= j < k && FirstOf(outcomes, k) == outcomes[j] && forall i :: 0 <= i < j ==> outcomes[i].None?
  {
    if k > 0 {
      FirstOfIsFirst(outcomes, k - 1);
      if FirstOf(outcomes, k - 1).None? && outcomes[k - 1].Some? {
        assert FirstOf(outcomes, k) == outcomes[k - 1];
      }
    }
  }

  /** A loop that stops with no error has checked every endpoint of the edges it
      looked at. */
  lemma NoErrorAllValid(input: CropInput, k: nat)
    requires k <= |input.edges| && input.FirstError(k).None?
    ensures input.AllValid(k)
  {
    FirstOfIsFirst(input.EdgeErrors(), k);
    forall j | 0 <= j < k ensures input.ValidEdge(j) {
      assert input.EdgeErrors()[j].None?;
    }
  }

  /** The crop reports the error of the first edge that has one: an invalid
      endpoint at its flat position, or under FilterError the first crossing
      edge; it reports none exactly when no edge has one. */
  lemma FirstErrorIsFirst(input: CropInput, k: nat)
    requires k <= |input.edges|
    ensures input.FirstError(k).None? <==> forall j :: 0 <= j < k ==> input.EdgeError(j).None?
    ensures input.FirstError(k).Some? ==>
      exists j :: 0 <= j < k && input.FirstError(k) == input.EdgeError(j) && forall i :: 0 <= i < j ==> input.EdgeError(i).None?
  {
    var errors := input.EdgeErrors();
    FirstOfIsFirst(errors, k);
    if input.FirstError(k).Some? {
      var j :| 0 <= j < k && FirstOf(errors, k) == errors[j] && forall i :: 0 <= i < j ==> errors[i].None?;
      assert forall i :: 0 <= i < j ==> input.EdgeError(i) == errors[i];
    } else {
      assert forall j :: 0 <= j < k ==> input.EdgeError(j) == errors[j];
    }
  }

  /** One pass of the edge loop, for edge i: validates both endpoints, tests
      them against the box and, for a crossing edge, reports FilterError or
      records the interpolated outside vertex; a kept edge sets its mask entry
      and both endpoints' vertex mask entries. */
  method ClassifyEdge(input: CropInput, i: nat, edgesMask: seq<bool>, vertexReferenced: seq<bool>, interpolatedValuesMap: map<nat, Vec3>)
    returns (err: Option<CropError>, newEdgesMask: seq<bool>, newVertexReferenced: seq<bool>, newInterpolatedValuesMap: map<nat, Vec3>)
    requires i < |input.edges| == |edgesMask| && |vertexReferenced| == |input.vertices|
    ensures err == input.EdgeErrors()[i]
    ensures err.None? ==> input.ValidEdge(i)
    ensures err.None? ==> newEdgesMask == (if input.Kept(i) then edgesMask[i := true] else edgesMask)
    ensures err.None? ==>
      newVertexReferenced == (if input.Kept(i) then vertexReferenced[input.edges[i].0 := true][input.edges[i].1 := true] else vertexReferenced)
    ensures err.None? ==>
      newInterpolatedValuesMap == (if input.behavior == InterpolateOutsideVertex && input.Crossing(i)
      then interpolatedValuesMap[input.OutsideEnd(i) := input.Interpolated(i)] else interpolatedValuesMap)
  {
    newEdgesMask, newVertexReferenced, newInterpolatedValuesMap := edgesMask, vertexReferenced, interpolatedValuesMap;
    var numVertices := |input.vertices|;
    var v0 := input.edges[i].0;
    var v1 := input.edges[i].1;
    if v0 >= numVertices {
      return Some(InvalidVertexIndex(2 * i, v0)), newEdgesMask, newVertexReferenced, newInterpolatedValuesMap;
    }
    if v1 >= numVertices {
      return Some(InvalidVertexIndex(2 * i + 1, v1)), newEdgesMask, newVertexReferenced, newInterpolatedValuesMap;
    }
    var v0Inside := IsInside(input.vertices[v0], input.box);
    var v1Inside := IsInside(input.vertices[v1], input.box);
    var edgeOutsideBoundary := !v0Inside && !v1Inside;
    var edgeInsideBoundary := v0Inside && v1Inside;
    var edgeIntersectingBoundary := (v0Inside && !v1Inside) || (!v0Inside && v1Inside);
    err := None;
    if edgeOutsideBoundary {
      return;
    }
    if edgeIntersectingBoundary {
      var insideVertexIdx, outsideVertexIdx := v0, v1;
      if v1Inside {
        insideVertexIdx, outsideVertexIdx := v1, v0;
      }
      if input.behavior == FilterError {
        return Some(OutsideVertexError(i)), newEdgesMask, newVertexReferenced, newInterpolatedValuesMap;
      } else if input.behavior == InterpolateOutsideVertex {
        var inside := input.vertices[insideVertexIdx];
        var outside := input.vertices[outsideVertexIdx];
        InterpolateFromInside(inside, outside, input.box);
        newInterpolatedValuesMap := newInterpolatedValuesMap[outsideVertexIdx := EdgeClip.InterpolateOutsideVertex(inside, outside, input.box)];
      }
    }
    if edgeInsideBoundary || (edgeIntersectingBoundary && input.behavior != IgnoreEdge) {
      newVertexReferenced := newVertexReferenced[v0 := true][v1 := true];
      newEdgesMask := newEdgesMask[i := true];
    }
  }

  /** How the loop's state after i + 1 edges follows from its state after i,
      when edge i raises no error. */
  lemma ScanStep(input: CropInput, i: nat)
    requires i < |input.edges| && input.FirstError(i).None? && input.AllValid(i) && input.EdgeErrors()[i].None?
    ensures input.ValidEdge(i) && input.FirstError(i + 1).None? && input.AllValid(i + 1)
    ensures input.MaskAfter(i + 1) == (if input.Kept(i) then input.MaskAfter(i)[i := true] else input.MaskAfter(i))
    ensures input.ReferencedAfter(i + 1)
      == (if input.Kept(i) then input.ReferencedAfter(i)[input.edges[i].0 := true][input.edges[i].1 := true] else input.ReferencedAfter(i))
    ensures input.InterpolatedAfter(i + 1) == (if input.behavior == InterpolateOutsideVertex && input.Crossing(i)
      then input.InterpolatedAfter(i)[input.OutsideEnd(i) := input.Interpolated(i)] else input.InterpolatedAfter(i))
  {
    assert input.EdgeError(i).None?;
    var m := input.MaskAfter(i + 1);
    var m' := if input.Kept(i) then input.MaskAfter(i)[i := true] else input.MaskAfter(i);
    assert forall j :: 0 <= j < |input.edges| ==> m[j] == m'[j];
  }

  /** The loop over the edges (the first loop of operator()): classifies every
      edge in turn and fills the edge mask, the vertex mask and the interpolated
      positions; it stops at the first error. */
  method ClassifyEdges(input: CropInput) returns (r: Result<EdgeScan, CropError>)
    ensures r.Failure? <==> input.FirstError(|input.edges|).Some?
    ensures r.Failure? ==> r.error == input.FirstError(|input.edges|).value
    ensures r.Success? ==>
      input.AllValid(|input.edges|) && r.value == EdgeScan(input.KeptMask(), input.Referenced(), input.InterpolatedAfter(|input.edges|))
  {
    var numEdges := |input.edges|;
    var edgesMask := seq(numEdges, _ => false);
    var vertexReferenced := seq(|input.vertices|, _ => false);
    var interpolatedValuesMap: map<nat, Vec3> := map[];
    var i := 0;
    while i < numEdges
      invariant 0 <= i <= numEdges
      invariant input.FirstError(i).None? && input.AllValid(i)
      invariant edgesMask == input.MaskAfter(i)
      invariant vertexReferenced == input.ReferencedAfter(i)
      invariant interpolatedValuesMap == input.InterpolatedAfter(i)
    {
      var err;
      err, edgesMask, vertexReferenced, interpolatedValuesMap := ClassifyEdge(input, i, edgesMask, vertexReferenced, interpolatedValuesMap);
      if err.Some? {
        FirstOfStays(input.EdgeErrors(), i + 1, numEdges);
        return Failure(err.value);
      }
      ScanStep(input, i);
      i := i + 1;
    }
    return Success(EdgeScan(edgesMask, vertexReferenced, interpolatedValuesMap));
  }

  // ---------------------------------------------------------------------------
  // What the edge loop computes

  /** A vertex is referenced after the first k edges exactly when it is an
      endpoint of a kept edge among them. */
  lemma {:induction false} ReferencedIffEndpoint(input: CropInput, k: nat, v: nat)
    requires k <= |input.edges| && input.AllValid(k) && v < |input.vertices|
    ensures input.ReferencedAfter(k)[v]
      <==> exists j :: 0 <= j < k && input.Kept(j) && (input.edges[j].0 == v || input.edges[j].1 == v)
  {
    if k > 0 {
      assert input.AllValid(k - 1);
      ReferencedIffEndpoint(input, k - 1, v);
      if input.Kept(k - 1) && (input.edges[k - 1].0 == v || input.edges[k - 1].1 == v) {
        assert input.ReferencedAfter(k)[v];
      }
    }
  }

  /** A vertex has an interpolated position after the first k edges exactly
      when, under InterpolateOutsideVertex, it is the outside endpoint of a
      crossing edge among them. */
  lemma {:induction false} InterpolatedKeys(input: CropInput, k: nat, v: nat)
    requires k <= |input.edges| && input.AllValid(k)
    ensures v in input.InterpolatedAfter(k) <==>
      (input.behavior == InterpolateOutsideVertex && exists j :: 0 <= j < k && input.Crossing(j) && input.OutsideEnd(j) == v)
  {
    if k > 0 {
      assert input.AllValid(k - 1);
      InterpolatedKeys(input, k - 1, v);
    }
  }

  /** Only outside vertices get an interpolated position, and that position is
      inside the box. */
  lemma {:induction false} InterpolatedMovesInside(input: CropInput, k: nat, v: nat)
    requires k <= |input.edges| && input.AllValid(k) && v in input.InterpolatedAfter(k)
    ensures v < |input.vertices| && !input.Inside(v) && IsInside(input.InterpolatedAfter(k)[v], input.box)
  {
    assert input.AllValid(k - 1);
    if !(input.behavior == InterpolateOutsideVertex && input.Crossing(k - 1) && input.OutsideEnd(k - 1) == v) {
      InterpolatedMovesInside(input, k - 1, v);
    }
  }

  /** Several crossing edges sharing an outside vertex: the last of them decides
      its interpolated position. */
  lemma {:induction false} InterpolatedLastWins(input: CropInput, k: nat, j: nat)
    requires j < k <= |input.edges| && input.AllValid(k)
    requires input.behavior == InterpolateOutsideVertex && input.Crossing(j)
    requires forall i :: j < i < k && input.Crossing(i) ==> input.OutsideEnd(i) != input.OutsideEnd(j)
    ensures input.OutsideEnd(j) in input.InterpolatedAfter(k)
    ensures input.InterpolatedAfter(k)[input.OutsideEnd(j)] == input.Interpolated(j)
  {
    assert input.AllValid(k - 1);
    if j < k - 1 {
      InterpolatedLastWins(input, k - 1, j);
    }
  }

  /** The keep rule under each behaviour: IgnoreEdge keeps only edges with both
      endpoints inside, InterpolateOutsideVertex every edge with an endpoint
      inside, and FilterError, when the edge raises no error, only edges with
      both endpoints inside. An edge with both endpoints outside is never kept. */
  lemma KeptByBehavior(input: CropInput, j: nat)
    requires j < |input.edges| && input.ValidEdge(j)
    ensures !input.Inside(input.edges[j].0) && !input.Inside(input.edges[j].1) ==> !input.Kept(j)
    ensures input.behavior == IgnoreEdge ==>
      (input.Kept(j) <==> input.Inside(input.edges[j].0) && input.Inside(input.edges[j].1))
    ensures input.behavior == InterpolateOutsideVertex ==>
      (input.Kept(j) <==> input.Inside(input.edges[j].0) || input.Inside(input.edges[j].1))
    ensures input.behavior == FilterError && input.EdgeError(j).None? ==>
      (input.Kept(j) <==> input.Inside(input.edges[j].0) && input.Inside(input.edges[j].1))
  {
  }

  /** When the crop raises no error, a referenced vertex outside the box is the
      outside endpoint of a kept crossing edge, which only
      InterpolateOutsideVertex keeps, and so it has an interpolated position. */
  lemma ReferencedOutsideInterpolated(input: CropInput, i: nat)
    requires input.FirstError(|input.edges|).None? && input.AllValid(|input.edges|)
    requires i < |input.vertices| && input.Referenced()[i] && !input.Inside(i)
    ensures i in input.InterpolatedAfter(|input.edges|)
  {
    var m := |input.edges|;
    ReferencedIffEndpoint(input, m, i);
    var j :| 0 <= j < m && input.Kept(j) && (input.edges[j].0 == i || input.edges[j].1 == i);
    FirstErrorIsFirst(input, m);
    assert input.EdgeError(j).None?;
    assert input.Crossing(j) && input.OutsideEnd(j) == i;
    InterpolatedKeys(input, m, i);
  }

  /** A referenced vertex's written position is inside the box when the crop
      raises no error. */
  lemma PositionInsideBox(input: CropInput, i: nat)
    requires input.FirstError(|input.edges|).None? && input.AllValid(|input.edges|)
    requires i < |input.vertices| && input.Referenced()[i]
    ensures IsInside(input.Positions()[i], input.box)
  {
    var m := |input.edges|;
    if i in input.InterpolatedAfter(m) {
      InterpolatedKeys(input, m, i);
      InterpolatedMovesInside(input, m, i);
    } else if !input.Inside(i) {
      ReferencedOutsideInterpolated(input, i);
    }
  }

  /** A crop that raises no error leaves every destination vertex inside the
      box: kept vertices inside it stay where they are, and an outside vertex is
      kept only as the outside endpoint of a crossing edge under
      InterpolateOutsideVertex, which moves it onto the box. */
  lemma DestVerticesInsideBox(input: CropInput, k: nat)
    requires input.FirstError(|input.edges|).None?
    ensures input.AllValid(|input.edges|)
    ensures k < |input.DestVertices()| ==> IsInside(input.DestVertices()[k], input.box)
  {
    NoErrorAllValid(input, |input.edges|);
    if k < |input.DestVertices()| {
      CompactOnlyKept(input.Positions(), input.Referenced(), k);
      var i :| 0 <= i < |input.vertices| && input.Referenced()[i] && input.DestVertices()[k] == input.Positions()[i];
      PositionInsideBox(input, i);
    }
  }

  /** Every endpoint of a kept edge is referenced, so the remapping never finds
      an unmapped endpoint and InvalidVertexMapping is never reported. */
  lemma KeptEdgesReferenced(input: CropInput)
    requires input.AllValid(|input.edges|)
    ensures EndpointsIn(input.edges, |input.Referenced()|)
    ensures EndpointsReferenced(input.edges, input.KeptMask(), input.Referenced())
  {
    var m := |input.edges|;
    forall j | 0 <= j < m ensures input.edges[j].0 < |input.vertices| && input.edges[j].1 < |input.vertices| {
      assert input.ValidEdge(j);
    }
    forall j | 0 <= j < m && input.KeptMask()[j]
      ensures input.Referenced()[input.edges[j].0] && input.Referenced()[input.edges[j].1]
    {
      assert input.ValidEdge(j);
      ReferencedIffEndpoint(input, m, input.edges[j].0);
      ReferencedIffEndpoint(input, m, input.edges[j].1);
    }
  }

  /** The old-to-new map sends a referenced vertex to its position in the
      compacted vertex list and every other vertex to -1; it keeps the order of
      the referenced vertices. */
  lemma VertexMappingLocates<T>(positions: seq<T>, referenced: seq<bool>, i: nat, i': nat)
    requires |positions| == |referenced| && i < |referenced| && i' < |referenced|
    ensures !referenced[i] ==> VertexMapping(referenced)[i] == -1
    ensures referenced[i] ==>
      (0 <= VertexMapping(referenced)[i] < |Compact(positions, referenced)|
       && Compact(positions, referenced)[VertexMapping(referenced)[i]] == positions[i])
    ensures referenced[i] && i < i' ==> VertexMapping(referenced)[i] < CountKept(referenced[..i'])
  {
    if referenced[i] {
      CompactAtRank(positions, referenced, i);
      if i < i' {
        RankIncreasing(referenced, i, i');
      }
    }
  }

  /** Each kept edge appears in the destination edge list at its rank among the
      kept edges, joining the new indices of its two endpoints, and those indices
      locate the endpoints' (possibly interpolated) positions in the destination
      vertex list. */
  lemma DestEdgeJoinsImages(input: CropInput, j: nat)
    requires input.AllValid(|input.edges|) && j < |input.edges| && input.Kept(j)
    ensures var k := CountKept(input.KeptMask()[..j]);
      var mapping := VertexMapping(input.Referenced());
      var e := input.edges[j];
      && k < |input.DestEdges()|
      && input.DestEdges()[k].0 == mapping[e.0] && input.DestEdges()[k].1 == mapping[e.1]
      && 0 <= mapping[e.0] < |input.DestVertices()| && 0 <= mapping[e.1] < |input.DestVertices()|
      && input.DestVertices()[mapping[e.0]] == input.Positions()[e.0]
      && input.DestVertices()[mapping[e.1]] == input.Positions()[e.1]
  {
    KeptEdgesReferenced(input);
    var referenced := input.Referenced();
    assert input.KeptMask()[j];
    CompactAtRank(RankedEdges(input.edges, referenced), input.KeptMask(), j);
    VertexMappingLocates(input.Positions(), referenced, input.edges[j].0, 0);
    VertexMappingLocates(input.Positions(), referenced, input.edges[j].1, 0);
  }

  /** Vertex v is an endpoint of some edge. */
  predicate IsEndpoint(edges: seq<Edge>, v: nat)
  {
    exists j :: 0 <= j < |edges| && (edges[j].0 == v || edges[j].1 == v)
  }

  /** A box holding every vertex leaves the geometry as it was: no edge raises
      an error, and the destination holds the source vertices and edges
      unchanged, provided every vertex is an endpoint of some edge (a vertex no
      edge touches is dropped whatever the box). */
  lemma FullInsideIsIdentity(input: CropInput)
    requires input.AllValid(|input.edges|)
    requires forall v :: 0 <= v < |input.vertices| ==> input.Inside(v)
    requires forall v :: 0 <= v < |input.vertices| ==> IsEndpoint(input.edges, v)
    ensures input.FirstError(|input.edges|).None?
    ensures input.DestVertices() == input.vertices
    ensures input.DestEdges() == input.edges
  {
    FullInsideKeepsAll(input);
    FirstErrorIsFirst(input, |input.edges|);
    FullInsideReferencesAll(input);
    FullInsideUnmoved(input);
    var referenced := input.Referenced();
    CompactKeepsAll(input.Positions(), referenced);
    RankedEdgesAllReferenced(input.edges, referenced);
    CompactKeepsAll(RankedEdges(input.edges, referenced), input.KeptMask());
  }

  /** With every vertex inside, every edge joins two vertices, is kept and raises no error. */
  lemma FullInsideKeepsAll(input: CropInput)
    requires input.AllValid(|input.edges|)
    requires forall v :: 0 <= v < |input.vertices| ==> input.Inside(v)
    ensures EndpointsIn(input.edges, |input.vertices|)
    ensures forall j :: 0 <= j < |input.edges| ==> input.Kept(j) && input.EdgeError(j).None?
  {
    forall j | 0 <= j < |input.edges|
      ensures input.edges[j].0 < |input.vertices| && input.edges[j].1 < |input.vertices| && input.Kept(j) && input.EdgeError(j).None?
    {
      assert input.ValidEdge(j);
    }
  }

  /** With every vertex inside, no vertex is moved. */
  lemma FullInsideUnmoved(input: CropInput)
    requires input.AllValid(|input.edges|)
    requires forall v :: 0 <= v < |input.vertices| ==> input.Inside(v)
    ensures input.Positions() == input.vertices
  {
    forall v | v in input.InterpolatedAfter(|input.edges|) ensures false {
      InterpolatedMovesInside(input, |input.edges|, v);
    }
  }

  /** With every vertex inside and an endpoint of some edge, every vertex is referenced. */
  lemma FullInsideReferencesAll(input: CropInput)
    requires input.AllValid(|input.edges|)
    requires forall v :: 0 <= v < |input.vertices| ==> input.Inside(v)
    requires forall v :: 0 <= v < |input.vertices| ==> IsEndpoint(input.edges, v)
    ensures forall v :: 0 <= v < |input.vertices| ==> input.Referenced()[v]
  {
    forall v | 0 <= v < |input.vertices| ensures input.Referenced()[v] {
      FullInsideReferences(input, v);
    }
  }

  /** With every vertex inside, an endpoint of any edge is referenced. */
  lemma FullInsideReferences(input: CropInput, v: nat)
    requires input.AllValid(|input.edges|) && v < |input.vertices|
    requires forall v :: 0 <= v < |input.vertices| ==> input.Inside(v)
    requires IsEndpoint(input.edges, v)
    ensures input.Referenced()[v]
  {
    var j :| 0 <= j < |input.edges| && (input.edges[j].0 == v || input.edges[j].1 == v);
    FullInsideKeepsAll(input);
    ReferencedIffEndpoint(input, |input.edges|, v);
  }

  // ---------------------------------------------------------------------------
  // The vertex and edge loops

  /** The loop building the old-to-new vertex map (the second loop of
      operator()): each referenced vertex gets the next new index, and its
      interpolated position, or else its own, is written there. */
  method MapVertices(vertices: seq<Vec3>, vertexReferenced: seq<bool>, interpolatedValuesMap: map<nat, Vec3>,
                     behavior: BoundaryIntersectionBehavior, destVertices: seq<Vec3>)
    returns (vertexMapping: seq<int>, newDestVertices: seq<Vec3>)
    requires |vertexReferenced| == |vertices| && |destVertices| == CountKept(vertexReferenced)
    ensures vertexMapping == VertexMapping(vertexReferenced)
    ensures newDestVertices == Compact(PositionsOf(vertices, interpolatedValuesMap, behavior), vertexReferenced)
  {
    var numVertices := |vertices|;
    ghost var positions := PositionsOf(vertices, interpolatedValuesMap, behavior);
    vertexMapping := seq(numVertices, _ => -1);
    newDestVertices := destVertices;
    var newIndex := 0;
    var i := 0;
    while i < numVertices
      invariant 0 <= i <= numVertices && |newDestVertices| == |destVertices|
      invariant newIndex == CountKept(vertexReferenced[..i]) <= |destVertices|
      invariant newDestVertices[..newIndex] == Compact(positions[..i], vertexReferenced[..i])
      invariant vertexMapping == MappingAfter(vertexReferenced, i)
    {
      CountKeptStep(vertexReferenced, i);
      CompactStep(positions, vertexReferenced, i);
      MappingStep(vertexReferenced, i);
      if vertexReferenced[i] {
        RankInRange(vertexReferenced, i);
        vertexMapping := vertexMapping[i := newIndex];
        var position := if behavior == InterpolateOutsideVertex && i in interpolatedValuesMap then interpolatedValuesMap[i] else vertices[i];
        WriteNext(newDestVertices, newIndex, Compact(positions[..i], vertexReferenced[..i]), position);
        newDestVertices := newDestVertices[newIndex := position];
        newIndex := newIndex + 1;
      }
      i := i + 1;
    }
    assert vertexReferenced[..i] == vertexReferenced && positions[..i] == positions;
  }

  /** The loop rewriting the kept edges (the third loop of operator()): each
      kept edge is written at the next position with its endpoints mapped to
      their new indices; an endpoint mapped to -1 stops it with
      InvalidVertexMapping, which happens exactly when a kept edge has an
      unreferenced endpoint. */
  method RemapEdges(srcEdges: seq<Edge>, edgesMask: seq<bool>, vertexReferenced: seq<bool>, vertexMapping: seq<int>, destEdges: seq<Edge>)
    returns (r: Result<seq<Edge>, CropError>)
    requires |edgesMask| == |srcEdges| && EndpointsIn(srcEdges, |vertexReferenced|)
    requires vertexMapping == VertexMapping(vertexReferenced) && |destEdges| == CountKept(edgesMask)
    ensures r.Success? <==> EndpointsReferenced(srcEdges, edgesMask, vertexReferenced)
    ensures r.Success? ==> r.value == Compact(RankedEdges(srcEdges, vertexReferenced), edgesMask)
    ensures r.Failure? ==> r.error == InvalidVertexMapping
  {
    ghost var ranked := RankedEdges(srcEdges, vertexReferenced);
    var newDestEdges := destEdges;
    var newIndex := 0;
    var i := 0;
    while i < |srcEdges|
      invariant 0 <= i <= |srcEdges| && |newDestEdges| == |destEdges|
      invariant newIndex == CountKept(edgesMask[..i]) <= |destEdges|
      invariant newDestEdges[..newIndex] == Compact(ranked[..i], edgesMask[..i])
      invariant EndpointsReferencedBefore(srcEdges, edgesMask, vertexReferenced, i)
    {
      CountKeptStep(edgesMask, i);
      CompactStep(ranked, edgesMask, i);
      if edgesMask[i] {
        MappedIffReferenced(vertexReferenced, srcEdges[i].0, srcEdges[i].0);
        MappedIffReferenced(vertexReferenced, srcEdges[i].1, srcEdges[i].1);
        var newV0 := vertexMapping[srcEdges[i].0];
        var newV1 := vertexMapping[srcEdges[i].1];
        if newV0 == -1 || newV1 == -1 {
          return Failure(InvalidVertexMapping);
        }
        RankInRange(edgesMask, i);
        WriteNext(newDestEdges, newIndex, Compact(ranked[..i], edgesMask[..i]), ranked[i]);
        newDestEdges := newDestEdges[newIndex := (newV0 as nat, newV1 as nat)];
        newIndex := newIndex + 1;
      }
      EndpointsReferencedStep(srcEdges, edgesMask, vertexReferenced, i);
      i := i + 1;
    }
    assert edgesMask[..i] == edgesMask && ranked[..i] == ranked;
    return Success(newDestEdges);
  }

  // ---------------------------------------------------------------------------
  // The destination geometry

  /** Every array compacted by the same mask. */
  function CompactAll<T>(arrays: seq<seq<T>>, mask: seq<bool>): (r: seq<seq<T>>)
    requires forall a :: 0 <= a < |arrays| ==> |arrays[a]| == |mask|
    ensures |r| == |arrays|
  {
    seq(|arrays|, a requires 0 <= a < |arrays| => Compact(arrays[a], mask))
  }

  /** resizeTuples on a store: the leading tuples are kept and new tuples hold fill. */
  function Resized<T>(s: seq<T>, n: nat, fill: T): (r: seq<T>)
    ensures |r| == n
  {
    if n <= |s| then s[..n] else s + seq(n - |s|, _ => fill)
  }

  /** resizeTuples on an attribute matrix resizes each of its arrays. */
  function ResizedAll<T>(arrays: seq<seq<T>>, n: nat, fill: T): (r: seq<seq<T>>)
    ensures |r| == |arrays| && forall a :: 0 <= a < |r| ==> |r[a]| == n
  {
    seq(|arrays|, a requires 0 <= a < |arrays| => Resized(arrays[a], n, fill))
  }

  /** Growing a store and then shrinking it is the same as resizing it once. */
  lemma ResizeTwice<T>(s: seq<T>, n: nat, n': nat, fill: T)
    requires n' <= n
    ensures Resized(Resized(s, n, fill), n', fill) == Resized(s, n', fill)
  {
    var r := Resized(Resized(s, n, fill), n', fill);
    assert forall i :: 0 <= i < n' ==> r[i] == Resized(s, n', fill)[i];
  }

  lemma ResizeAllTwice<T>(arrays: seq<seq<T>>, n: nat, n': nat, fill: T)
    requires n' <= n
    ensures ResizedAll(ResizedAll(arrays, n, fill), n', fill) == ResizedAll(arrays, n', fill)
  {
    forall a | 0 <= a < |arrays|
      ensures ResizedAll(ResizedAll(arrays, n, fill), n', fill)[a] == ResizedAll(arrays, n', fill)[a]
    {
      ResizeTwice(arrays[a], n, n', fill);
    }
  }

  /** The loop over the arrays of an attribute matrix: each source array is
      compacted into its destination array by CropArray; a set cancel flag ends
      the loop, with success, before the first array. */
  method CropAttributeArrays<T>(srcArrays: seq<seq<T>>, destArrays: seq<seq<T>>, tupleMask: seq<bool>, shouldCancel: bool)
    returns (newArrays: seq<seq<T>>, cancelled: bool)
    requires |destArrays| == |srcArrays|
    requires forall a :: 0 <= a < |srcArrays| ==> |srcArrays[a]| == |tupleMask|
    requires forall a :: 0 <= a < |destArrays| ==> |destArrays[a]| == CountKept(tupleMask)
    ensures cancelled <==> shouldCancel && |srcArrays| > 0
    ensures newArrays == if cancelled then destArrays else CompactAll(srcArrays, tupleMask)
  {
    newArrays := destArrays;
    var a := 0;
    while a < |srcArrays|
      invariant 0 <= a <= |srcArrays| && |newArrays| == |destArrays|
      invariant shouldCancel ==> a == 0
      invariant forall b :: 0 <= b < |newArrays| ==> newArrays[b] == if b < a then Compact(srcArrays[b], tupleMask) else destArrays[b]
    {
      if shouldCancel {
        return newArrays, true;
      }
      var dest := destArrays[a];
      var store := new T[|dest|](k requires 0 <= k < |dest| => dest[k]);
      CropArray(srcArrays[a], store, tupleMask, shouldCancel);
      newArrays := newArrays[a := store[..]];
      a := a + 1;
    }
    return newArrays, false;
  }

  /** An edge geometry: its vertex list, edge list and the arrays of its vertex
      and edge attribute matrices (one tuple per vertex, one per edge). */
  class EdgeGeom<T> {
    var vertices: seq<Vec3>
    var edges: seq<Edge>
    var vertexData: seq<seq<T>>
    var edgeData: seq<seq<T>>

    predicate Valid()
      reads this
    {
      && (forall a :: 0 <= a < |vertexData| ==> |vertexData[a]| == |vertices|)
      && (forall a :: 0 <= a < |edgeData| ==> |edgeData[a]| == |edges|)
    }
  }

  /** The filter's arguments the crop reads (CropEdgeGeometryInputValues). */
  datatype CropEdgeGeometryInputValues = CropEdgeGeometryInputValues(
    srcEdgeGeomPath: seq<string>, destEdgeGeomPath: seq<string>,
    minCoords: seq<real>, maxCoords: seq<real>, removeOriginalGeometry: bool,
    cropXDim: bool, cropYDim: bool, cropZDim: bool, boundaryIntersectionBehavior: BoundaryIntersectionBehavior)

  /** The name the cropped geometry is created under when it replaces the original. */
  const TempGeometryName: string := ".cropped_edge_geometry"

  /** Where the crop writes: the chosen destination, or, when the original is
      removed, a sibling of the source named TempGeometryName. */
  function DestGeometryPath(values: CropEdgeGeometryInputValues): (path: seq<string>)
    requires |values.srcEdgeGeomPath| > 0
  {
    if values.removeOriginalGeometry then values.srcEdgeGeomPath[|values.srcEdgeGeomPath| - 1 := TempGeometryName]
    else values.destEdgeGeomPath
  }

  /** The crop box of the arguments: the float limits on an unselected axis. */
  function BoxOf(values: CropEdgeGeometryInputValues): BoundingBox
    requires |values.minCoords| == 3 && |values.maxCoords| == 3
  {
    MakeBoundingBox(values.cropXDim, values.cropYDim, values.cropZDim, values.minCoords, values.maxCoords)
  }

  /** The part of operator() after the edge loop, on dest's lists and arrays
      already resized to the kept sizes: the vertex loop, the vertex arrays, the
      edge remapping and the edge arrays. A set cancel flag ends it before the
      first attribute array it reaches, leaving the rest as it was. */
  method FillDest<T>(input: CropInput, scan: EdgeScan, srcVertexData: seq<seq<T>>, srcEdgeData: seq<seq<T>>,
                     destVertices: seq<Vec3>, destVertexData: seq<seq<T>>, destEdges: seq<Edge>, destEdgeData: seq<seq<T>>,
                     shouldCancel: bool)
    returns (vertices: seq<Vec3>, vertexData: seq<seq<T>>, edges: seq<Edge>, edgeData: seq<seq<T>>)
    requires input.AllValid(|input.edges|)
    requires scan == EdgeScan(input.KeptMask(), input.Referenced(), input.InterpolatedAfter(|input.edges|))
    requires forall a :: 0 <= a < |srcVertexData| ==> |srcVertexData[a]| == |input.vertices|
    requires forall a :: 0 <= a < |srcEdgeData| ==> |srcEdgeData[a]| == |input.edges|
    requires |destVertices| == CountKept(scan.vertexReferenced) && |destEdges| == CountKept(scan.edgesMask)
    requires |destVertexData| == |srcVertexData| && |destEdgeData| == |srcEdgeData|
    requires forall a :: 0 <= a < |destVertexData| ==> |destVertexData[a]| == CountKept(scan.vertexReferenced)
    requires forall a :: 0 <= a < |destEdgeData| ==> |destEdgeData[a]| == CountKept(scan.edgesMask)
    ensures vertices == input.DestVertices()
    ensures var vertexCancel := shouldCancel && |srcVertexData| > 0;
      && vertexData == (if vertexCancel then destVertexData else CompactAll(srcVertexData, scan.vertexReferenced))
      && edges == (if vertexCancel then destEdges else input.DestEdges())
    ensures var edgeCancel := shouldCancel && (|srcVertexData| > 0 || |srcEdgeData| > 0);
      edgeData == (if edgeCancel then destEdgeData else CompactAll(srcEdgeData, scan.edgesMask))
  {
    var vertexMapping;
    vertexMapping, vertices := MapVertices(input.vertices, scan.vertexReferenced, scan.interpolated, input.behavior, destVertices);
    var cancelled;
    vertexData, cancelled := CropAttributeArrays(srcVertexData, destVertexData, scan.vertexReferenced, shouldCancel);
    edges, edgeData := destEdges, destEdgeData;
    if cancelled {
      return;
    }
    KeptEdgesReferenced(input);
    var remapped := RemapEdges(input.edges, scan.edgesMask, scan.vertexReferenced, vertexMapping, destEdges);
    if remapped.Failure? {
      assert false;
    } else {
      edges := remapped.value;
    }
    edgeData, cancelled := CropAttributeArrays(srcEdgeData, destEdgeData, scan.edgesMask, shouldCancel);
  }

  /** CropEdgeGeometry::operator(): crops src into dest, the geometry found at
      DestGeometryPath(values). dest's lists and attribute arrays are first
      resized to the source's sizes; an error from the edge loop leaves them so.
      Otherwise they are resized to the kept sizes and filled: vertices, vertex
      arrays, edges, edge arrays, in that order, a set cancel flag ending the run
      with success before the first attribute array it reaches. */
  method Crop<T>(src: EdgeGeom<T>, dest: EdgeGeom<T>, values: CropEdgeGeometryInputValues, zero: T, shouldCancel: bool)
    returns (r: Result<(), CropError>)
    requires src != dest && src.Valid()
    requires |dest.vertexData| == |src.vertexData| && |dest.edgeData| == |src.edgeData|
    requires |values.minCoords| == 3 && |values.maxCoords| == 3
    modifies dest
    ensures var input := CropInput(src.vertices, src.edges, BoxOf(values), values.boundaryIntersectionBehavior);
      var error := input.FirstError(|src.edges|);
      error.Some? ==>
        && r == Failure(error.value)
        && dest.vertices == Resized(old(dest.vertices), |src.vertices|, Origin)
        && dest.vertexData == ResizedAll(old(dest.vertexData), |src.vertices|, zero)
        && dest.edges == Resized(old(dest.edges), |src.edges|, NoEdge)
        && dest.edgeData == ResizedAll(old(dest.edgeData), |src.edges|, zero)
    ensures var input := CropInput(src.vertices, src.edges, BoxOf(values), values.boundaryIntersectionBehavior);
      input.FirstError(|src.edges|).None? ==>
        && r == Success(())
        && input.AllValid(|src.edges|)
        && dest.vertices == input.DestVertices()
        && var vertexCancel := shouldCancel && |src.vertexData| > 0;
        && var edgeCancel := shouldCancel && (|src.vertexData| > 0 || |src.edgeData| > 0);
        && var numKeptVertices := CountKept(input.Referenced());
        && var numKeptEdges := CountKept(input.KeptMask());
        && dest.vertexData == (if vertexCancel then ResizedAll(old(dest.vertexData), numKeptVertices, zero)
                               else CompactAll(src.vertexData, input.Referenced()))
        && dest.edges == (if vertexCancel then Resized(old(dest.edges), numKeptEdges, NoEdge) else input.DestEdges())
        && dest.edgeData == (if edgeCancel then ResizedAll(old(dest.edgeData), numKeptEdges, zero)
                             else CompactAll(src.edgeData, input.KeptMask()))
  {
    var input := CropInput(src.vertices, src.edges, BoxOf(values), values.boundaryIntersectionBehavior);
    var numVertices := |src.vertices|;
    var numEdges := |src.edges|;
    var vertices := Resized(dest.vertices, numVertices, Origin);
    var vertexData := ResizedAll(dest.vertexData, numVertices, zero);
    var edges := Resized(dest.edges, numEdges, NoEdge);
    var edgeData := ResizedAll(dest.edgeData, numEdges, zero);

    var scan := ClassifyEdges(input);
    if scan.Failure? {
      dest.vertices, dest.vertexData, dest.edges, dest.edgeData := vertices, vertexData, edges, edgeData;
      return Failure(scan.error);
    }

    var totalVerticesReferenced := CountKept(scan.value.vertexReferenced);
    var totalEdgesKept := CountKept(scan.value.edgesMask);
    ResizeAllTwice(dest.vertexData, numVertices, totalVerticesReferenced, zero);
    ResizeTwice(dest.edges, numEdges, totalEdgesKept, NoEdge);
    ResizeAllTwice(dest.edgeData, numEdges, totalEdgesKept, zero);
    vertices := Resized(vertices, totalVerticesReferenced, Origin);
    vertexData := ResizedAll(vertexData, totalVerticesReferenced, zero);
    edges := Resized(edges, totalEdgesKept, NoEdge);
    edgeData := ResizedAll(edgeData, totalEdgesKept, zero);

    vertices, vertexData, edges, edgeData :=
      FillDest(input, scan.value, src.vertexData, src.edgeData, vertices, vertexData, edges, edgeData, shouldCancel);
    dest.vertices, dest.vertexData, dest.edges, dest.edgeData := vertices, vertexData, edges, edgeData;
    return Success(());
  }
}
