# Edge-geometry crop and SurfaceNets cell flag

This project is a Dafny model of three pieces of the SimplnxCore plugin of
simplnx:

* **The edge-geometry crop kernel**, `CropEdgeGeometry::operator()` and its
  helpers (modules `EdgeClip`, `MaskedCopy` and `CropEdgeGeometry`).

  The kernel takes:
  * a vertex list;
  * an edge list;
  * an axis-aligned crop box, in which an unselected axis runs from the float
    limits `lowest()` to `max()`;
  * a boundary-intersection behaviour.

  It classifies each vertex as inside or outside the box. Each edge is then
  kept, dropped, rejected with an error, or, for an edge crossing the box,
  has its outside vertex moved to where the edge meets the box boundary. The
  kernel also:
  * builds the old-to-new vertex index map;
  * writes the compacted vertex and edge lists of the destination geometry;
  * compacts every vertex and edge attribute array with the same masks.

  The kernel's loops are methods over sequences. The masked tuple copy works
  in place on an `array`. The destination geometry is a class whose fields
  the crop reassigns.

* **The preflight of the crop filter**, `CropEdgeGeometryFilter::preflightImpl`
  (module `CropEdgeGeometryFilter`). It covers:
  * the ordered parameter checks and their error codes;
  * the in-place mode's path renaming, which moves the original aside, creates
    the cropped geometry beside it and renames it at the end;
  * the actions that create the destination geometry and one array per source
    attribute array;
  * the vertex-data warning;
  * the "Crop Dimensions" preflight value.

* **The SurfaceNets cell flag `MMCellFlag`** (module `MMCellFlag`). It is one
  32-bit word that packs the classification of a voxel cell, computed from
  its 8 corner labels:
  * 12 edge-crossing bits;
  * six 2-bit face-crossing codes;
  * a 2-bit vertex type;
  * a 3-bit junction count.

  `set` builds the word step by step, and the accessors decode it with
  masks and shifts. The flag is a class holding a `bv32` word.

Module `CropEdgeGeometryExamples` works the unit tests' 4-vertex square
through the model. Module `Wrappers` holds the `Option` and `Result` types.

The specification functions are:

| Kernel | Function | What it gives |
|---|---|---|
| crop | `CropInput.DestVertices` | the destination vertex list |
| crop | `CropInput.DestEdges` | the destination edge list |
| crop | `CropInput.FirstError` | the error the edge loop stops with |
| filter | `ValidationError` | the first failing parameter check |
| filter | `CreatesDestination` | what a successful preflight produces |
| cell flag | `Classify` | the cell's fields |
| cell flag | `Pack` and `Unpack` | the word's encoding and decoding |

The imperative members are proved against these functions, and the lemmas
state what the source promises about the functions.

## Model

| member | source | states |
|---|---|---|
| EdgeClip.InsideIffWithinSelectedAxes | src/Plugins/SimplnxCore/src/SimplnxCore/Filters/Algorithms/CropEdgeGeometry.cpp:157-160 | a finite vertex is inside the box built from the crop parameters iff, on every selected axis, its coordinate lies between min and max, both included; an unselected axis (float limits) never excludes a finite vertex |
| EdgeClip.ClipFromInside | src/Plugins/SimplnxCore/src/SimplnxCore/Filters/Algorithms/CropEdgeGeometry.cpp:76-101 | clipping [0, tMax] from a coordinate within the slab leaves tMin at 0 and only lowers tMax, keeping it in [0, tMax] |
| EdgeClip.ClipPointInside | src/Plugins/SimplnxCore/src/SimplnxCore/Filters/Algorithms/CropEdgeGeometry.cpp:76-101 | every point of the segment up to the clipped tMax lies within the slab's bounds |
| EdgeClip.ClipParametersFromInside | src/Plugins/SimplnxCore/src/SimplnxCore/Filters/Algorithms/CropEdgeGeometry.cpp:136-138 | from an inside vertex no clip divides by zero, and the three successive clips give the interval (0, t) with 0 <= t <= 1, t never growing from one axis to the next |
| EdgeClip.InterpolateFromInside | src/Plugins/SimplnxCore/src/SimplnxCore/Filters/Algorithms/CropEdgeGeometry.cpp:115-155 | from an inside vertex the empty-interval fallback is never taken; the result is the point inside + t * (outside - inside) with t in [0, 1], and it lies in the box |
| EdgeClip.InterpolateInsideUnchanged | src/Plugins/SimplnxCore/src/SimplnxCore/Filters/Algorithms/CropEdgeGeometry.cpp:115-155 | when the "outside" vertex is in fact inside the box, interpolation returns it unchanged |
| EdgeClip.FallbackNeedsOutsideStart | src/Plugins/SimplnxCore/src/SimplnxCore/Filters/Algorithms/CropEdgeGeometry.cpp:140-144 | an example: from a start vertex outside the box the clip can give tMin > tMax, and the fallback then returns the outside vertex unchanged (InterpolateFromInside shows the fallback is never taken from an inside start) |
| MaskedCopy.CountKept | src/Plugins/SimplnxCore/src/SimplnxCore/Filters/Algorithms/CropEdgeGeometry.cpp:306-314 | the number of set mask entries (the destination tuple count) never exceeds the mask length |
| MaskedCopy.Compact | src/Plugins/SimplnxCore/src/SimplnxCore/Filters/Algorithms/CropEdgeGeometry.cpp:37-52 | the masked copy holds exactly as many tuples as the mask has set entries |
| MaskedCopy.CountKeptMonotone | src/Plugins/SimplnxCore/src/SimplnxCore/Filters/Algorithms/CropEdgeGeometry.cpp:37-52 | the running new index never decreases along the mask |
| MaskedCopy.RankInRange | src/Plugins/SimplnxCore/src/SimplnxCore/Filters/Algorithms/CropEdgeGeometry.cpp:37-52 | a kept tuple's new index is a valid position of the resized destination |
| MaskedCopy.RankIncreasing | src/Plugins/SimplnxCore/src/SimplnxCore/Filters/Algorithms/CropEdgeGeometry.cpp:37-52 | new indices strictly increase along the kept tuples, so the copy keeps their order |
| MaskedCopy.CompactAtRank | src/Plugins/SimplnxCore/src/SimplnxCore/Filters/Algorithms/CropEdgeGeometry.cpp:37-52 | each kept tuple lands, unchanged, at its new index (the number of kept tuples before it) |
| MaskedCopy.CompactOnlyKept | src/Plugins/SimplnxCore/src/SimplnxCore/Filters/Algorithms/CropEdgeGeometry.cpp:37-52 | every destination tuple is a kept source tuple found at its rank: nothing else is written |
| MaskedCopy.CountKeptAll | src/Plugins/SimplnxCore/src/SimplnxCore/Filters/Algorithms/CropEdgeGeometry.cpp:306-314 | with every entry set, the kept count is the full tuple count |
| MaskedCopy.CompactKeepsAll | src/Plugins/SimplnxCore/src/SimplnxCore/Filters/Algorithms/CropEdgeGeometry.cpp:37-52 | with every entry set, the copy is the source itself |
| MaskedCopy.CropArray | src/Plugins/SimplnxCore/src/SimplnxCore/Filters/Algorithms/CropEdgeGeometry.cpp:37-52 | CropEdgeGeomArray: with the cancel flag clear the destination array becomes exactly the kept tuples in order; with it set the array is untouched |
| CropEdgeGeometry.CropInput.Interpolated | src/Plugins/SimplnxCore/src/SimplnxCore/Filters/Algorithms/CropEdgeGeometry.cpp:291-295 | the position recorded for the outside vertex of a crossing edge lies inside the box |
| CropEdgeGeometry.MappedIffReferenced | src/Plugins/SimplnxCore/src/SimplnxCore/Filters/Algorithms/CropEdgeGeometry.cpp:316-339 | the old-to-new map sends a vertex to -1 iff it is dropped; a kept vertex goes to a valid index of the destination vertex list (below the kept count), and kept vertices go to strictly increasing indices, so no two share one |
| CropEdgeGeometry.RankedEdgesAllReferenced | src/Plugins/SimplnxCore/src/SimplnxCore/Filters/Algorithms/CropEdgeGeometry.cpp:362-381 | when every vertex is kept, remapping leaves every edge as it was |
| CropEdgeGeometry.NoErrorAllValid | src/Plugins/SimplnxCore/src/SimplnxCore/Filters/Algorithms/CropEdgeGeometry.cpp:234-242 | when the edge loop ends without error, every endpoint of every edge it visited is a valid vertex index |
| CropEdgeGeometry.FirstErrorIsFirst | src/Plugins/SimplnxCore/src/SimplnxCore/Filters/Algorithms/CropEdgeGeometry.cpp:224-304 | the crop reports no error iff no edge raises one, and otherwise exactly the error of the first edge that does |
| CropEdgeGeometry.ClassifyEdge | src/Plugins/SimplnxCore/src/SimplnxCore/Filters/Algorithms/CropEdgeGeometry.cpp:234-303 | one pass of the edge loop: reports an invalid index (at the flat edge-list position 2i or 2i+1) or, under FilterError, a crossing edge; otherwise sets the edge's mask entry and its endpoints' references exactly when it is kept, and records the interpolated position of its outside vertex when it crosses under InterpolateOutsideVertex |
| CropEdgeGeometry.ClassifyEdges | src/Plugins/SimplnxCore/src/SimplnxCore/Filters/Algorithms/CropEdgeGeometry.cpp:224-304 | the edge loop fails iff some edge raises an error, with the first such error; otherwise it returns the edge mask, the vertex mask and the interpolation map of the specification |
| CropEdgeGeometry.ReferencedIffEndpoint | src/Plugins/SimplnxCore/src/SimplnxCore/Filters/Algorithms/CropEdgeGeometry.cpp:298-303 | a vertex is kept iff it is an endpoint of some kept edge |
| CropEdgeGeometry.InterpolatedKeys | src/Plugins/SimplnxCore/src/SimplnxCore/Filters/Algorithms/CropEdgeGeometry.cpp:291-295 | a vertex has an interpolated position iff the behaviour is InterpolateOutsideVertex and it is the outside endpoint of some crossing edge |
| CropEdgeGeometry.InterpolatedMovesInside | src/Plugins/SimplnxCore/src/SimplnxCore/Filters/Algorithms/CropEdgeGeometry.cpp:264-296 | only vertices outside the box get an interpolated position, and that position lies inside the box |
| CropEdgeGeometry.InterpolatedLastWins | src/Plugins/SimplnxCore/src/SimplnxCore/Filters/Algorithms/CropEdgeGeometry.cpp:291-295 | when several crossing edges share an outside vertex, the position from the last of them is the one kept |
| CropEdgeGeometry.KeptByBehavior | src/Plugins/SimplnxCore/src/SimplnxCore/Filters/Algorithms/CropEdgeGeometry.cpp:255-303 | an edge with both ends outside is always dropped; IgnoreEdge (and FilterError without error) keeps exactly the edges with both ends inside; InterpolateOutsideVertex keeps exactly those with at least one end inside |
| CropEdgeGeometry.ReferencedOutsideInterpolated | src/Plugins/SimplnxCore/src/SimplnxCore/Filters/Algorithms/CropEdgeGeometry.cpp:316-339 | a kept vertex outside the box always has an interpolated position, so the interpolation-map lookup never misses |
| CropEdgeGeometry.PositionInsideBox | src/Plugins/SimplnxCore/src/SimplnxCore/Filters/Algorithms/CropEdgeGeometry.cpp:316-339 | the position written for every kept vertex lies inside the box |
| CropEdgeGeometry.DestVerticesInsideBox | src/Plugins/SimplnxCore/src/SimplnxCore/Filters/Algorithms/CropEdgeGeometry.cpp:316-339 | after a crop without error, every destination vertex lies inside the box |
| CropEdgeGeometry.KeptEdgesReferenced | src/Plugins/SimplnxCore/src/SimplnxCore/Filters/Algorithms/CropEdgeGeometry.cpp:373-376 | every endpoint of a kept edge is a kept vertex, so InvalidVertexMapping (-1222) cannot be raised |
| CropEdgeGeometry.VertexMappingLocates | src/Plugins/SimplnxCore/src/SimplnxCore/Filters/Algorithms/CropEdgeGeometry.cpp:316-339 | the old-to-new map sends an unreferenced vertex to -1 and a referenced one to the position of its value in the compacted list, with order kept |
| CropEdgeGeometry.DestEdgeJoinsImages | src/Plugins/SimplnxCore/src/SimplnxCore/Filters/Algorithms/CropEdgeGeometry.cpp:362-381 | each kept edge appears at its rank in the destination edge list, joining the destination vertices that hold its endpoints' positions |
| CropEdgeGeometry.FullInsideIsIdentity | src/Plugins/SimplnxCore/src/SimplnxCore/Filters/Algorithms/CropEdgeGeometry.cpp:228-381 | a box holding every vertex leaves the geometry as it was: no edge raises an error, and the destination holds the source vertices and edges unchanged, provided every vertex is an endpoint of some edge (an untouched vertex is dropped whatever the box) |
| CropEdgeGeometry.MapVertices | src/Plugins/SimplnxCore/src/SimplnxCore/Filters/Algorithms/CropEdgeGeometry.cpp:316-339 | the vertex loop produces the old-to-new map and the compacted list of the kept vertices' positions (interpolated where recorded) |
| CropEdgeGeometry.RemapEdges | src/Plugins/SimplnxCore/src/SimplnxCore/Filters/Algorithms/CropEdgeGeometry.cpp:362-381 | the edge loop succeeds iff every endpoint of a kept edge is referenced, and then yields the kept edges in order with remapped endpoints; otherwise InvalidVertexMapping |
| CropEdgeGeometry.ResizeTwice | src/Plugins/SimplnxCore/src/SimplnxCore/Filters/Algorithms/CropEdgeGeometry.cpp:306-314 | resizing the destination list to the source size and then to the kept count is the same as resizing it once to the kept count |
| CropEdgeGeometry.ResizeAllTwice | src/Plugins/SimplnxCore/src/SimplnxCore/Filters/Algorithms/CropEdgeGeometry.cpp:306-314 | the same for every array of an attribute matrix |
| CropEdgeGeometry.CropAttributeArrays | src/Plugins/SimplnxCore/src/SimplnxCore/Filters/Algorithms/CropEdgeGeometry.cpp:341-360 | each destination array becomes its source array compacted by the mask, unless the cancel flag stops the loop (only when there is an array) |
| CropEdgeGeometry.FillDest | src/Plugins/SimplnxCore/src/SimplnxCore/Filters/Algorithms/CropEdgeGeometry.cpp:306-402 | after the edge loop, the destination receives the specified vertex list, edge list and compacted attribute arrays, or stops early at a set cancel flag |
| CropEdgeGeometry.Crop | src/Plugins/SimplnxCore/src/SimplnxCore/Filters/Algorithms/CropEdgeGeometry.cpp:182-405 | operator(): fails with the first edge error and leaves the destination resized to the source sizes; otherwise succeeds with the destination holding the specified vertices, edges and compacted arrays (or the kept-size arrays untouched when cancelled) |
| CropEdgeGeometryFilter.Renamed | src/Plugins/SimplnxCore/src/SimplnxCore/Filters/CropEdgeGeometryFilter.cpp:160-176 | replacing a path's target name keeps its parent and length and sets the last component |
| CropEdgeGeometryFilter.ValidationErrorCases | src/Plugins/SimplnxCore/src/SimplnxCore/Filters/CropEdgeGeometryFilter.cpp:127-156 | -1213 iff no axis is chosen; otherwise -1210, -1211, -1212 iff X, Y, Z is the first selected axis with max < min; no error iff an axis is chosen and no selected axis has max < min (min == max passes; unselected axes are not checked) |
| CropEdgeGeometryFilter.ValidatedBoxNonEmpty | src/Plugins/SimplnxCore/src/SimplnxCore/Filters/CropEdgeGeometryFilter.cpp:132-156 | parameters that pass the checks give a box with min <= max on every axis and at least one axis chosen |
| CropEdgeGeometryFilter.InPlaceReplacesOriginal | src/Plugins/SimplnxCore/src/SimplnxCore/Filters/CropEdgeGeometryFilter.cpp:160-176 | in-place mode creates the cropped geometry as a sibling named ".cropped_edge_geometry", whose final rename restores the source path; the original is moved to a different path |
| CropEdgeGeometryFilter.TemporaryPathsDistinct | src/Plugins/SimplnxCore/src/SimplnxCore/Filters/CropEdgeGeometryFilter.cpp:160-176 | the moved original and the temporary destination collide exactly when the source is named "cropped_edge_geometry" |
| CropEdgeGeometryFilter.AxisLettersSelected | src/Plugins/SimplnxCore/src/SimplnxCore/Filters/CropEdgeGeometryFilter.cpp:239-243 | the crop string names exactly the selected axes, each once, in X, Y, Z order |
| CropEdgeGeometryFilter.InPlacePaths | src/Plugins/SimplnxCore/src/SimplnxCore/Filters/CropEdgeGeometryFilter.cpp:160-176 | the path edits give the destination path of the crop and, in in-place mode, defer the move and the deletion of the original |
| CropEdgeGeometryFilter.DescribeCropDimensions | src/Plugins/SimplnxCore/src/SimplnxCore/Filters/CropEdgeGeometryFilter.cpp:239-243 | the appended string is the fixed sentence followed by the selected axis letters |
| CropEdgeGeometryFilter.AppendCreateArrays | src/Plugins/SimplnxCore/src/SimplnxCore/Filters/CropEdgeGeometryFilter.cpp:207-215 | the earlier actions are kept, and each source array gets one action, in order, creating a 1-tuple array of the same type and component shape under the destination matrix |
| CropEdgeGeometryFilter.CreateDestination | src/Plugins/SimplnxCore/src/SimplnxCore/Filters/CropEdgeGeometryFilter.cpp:192-243 | the geometry creation, then one array per edge array and per vertex array, the -100 warning iff there is vertex data, and the crop dimensions value |
| CropEdgeGeometryFilter.Preflight | src/Plugins/SimplnxCore/src/SimplnxCore/Filters/CropEdgeGeometryFilter.cpp:116-280 | preflight fails iff a parameter check fails, with that check's code and no warning or value; otherwise it produces the destination actions, the deferred in-place actions, the warning and the value |
| CropEdgeGeometryFilter.InvalidParamsExample | src/Plugins/SimplnxCore/test/CropEdgeGeometryTest.cpp:278-341 | the "Invalid Params" sections give -1210, -1211, -1212 and -1213, and valid bounds give no error |
| CropEdgeGeometryExamples.XYBoxClassification | src/Plugins/SimplnxCore/test/CropEdgeGeometryTest.cpp:27-88 | in the test square with the x-y box, vertices 0 and 1 are inside and 2 and 3 outside; edges 1-2 and 3-0 cross the boundary |
| CropEdgeGeometryExamples.EdgesEndpointsIn | src/Plugins/SimplnxCore/test/CropEdgeGeometryTest.cpp:48-58 | every edge of the test square joins two of its four vertices |
| CropEdgeGeometryExamples.NoErrorUnlessFiltered | src/Plugins/SimplnxCore/src/SimplnxCore/Filters/Algorithms/CropEdgeGeometry.cpp:283-290 | in the test square no edge raises an error unless crossing edges are errors |
| CropEdgeGeometryExamples.IgnoreEdgesMasks | src/Plugins/SimplnxCore/test/CropEdgeGeometryTest.cpp:139-198 | under IgnoreEdge only edge 0-1 and its two vertices are kept, with positions unmoved |
| CropEdgeGeometryExamples.IgnoreEdgesExampleVertices | src/Plugins/SimplnxCore/test/CropEdgeGeometryTest.cpp:139-198 | the "Ignore Edges" crop keeps 2 vertices, (0, 0, 0) and (1, 2, -2) |
| CropEdgeGeometryExamples.IgnoreEdgesExampleEdges | src/Plugins/SimplnxCore/test/CropEdgeGeometryTest.cpp:139-198 | the "Ignore Edges" crop keeps 1 edge, 0-1 |
| CropEdgeGeometryExamples.IgnoreEdgesArrays | src/Plugins/SimplnxCore/test/CropEdgeGeometryTest.cpp:139-198 | the "Ignore Edges" attribute arrays keep tuples 8, 3 and 12 and 24 |
| CropEdgeGeometryExamples.InterpolatedPositions | src/Plugins/SimplnxCore/test/CropEdgeGeometryTest.cpp:200-276 | the crossing edges move vertex 2 to (1.5, 1.75, -2) and vertex 3 to (1, -0.5, 0) |
| CropEdgeGeometryExamples.InterpolateMasks | src/Plugins/SimplnxCore/test/CropEdgeGeometryTest.cpp:200-276 | under InterpolateOutsideVertex edge 2-3 is dropped, all vertices are kept, and 2 and 3 move |
| CropEdgeGeometryExamples.InterpolateExampleVertices | src/Plugins/SimplnxCore/test/CropEdgeGeometryTest.cpp:200-276 | the "Interpolate Outside Vertices" crop gives the four vertices (0, 0, 0), (1, 2, -2), (1.5, 1.75, -2), (1, -0.5, 0) |
| CropEdgeGeometryExamples.InterpolateExampleEdges | src/Plugins/SimplnxCore/test/CropEdgeGeometryTest.cpp:200-276 | the "Interpolate Outside Vertices" crop keeps edges 0-1, 1-2 and 3-0 |
| CropEdgeGeometryExamples.InterpolateArrays | src/Plugins/SimplnxCore/test/CropEdgeGeometryTest.cpp:200-276 | the vertex arrays are kept whole and the edge arrays lose the tuples of edge 2-3 |
| CropEdgeGeometryExamples.FilterErrorExample | src/Plugins/SimplnxCore/test/CropEdgeGeometryTest.cpp:91-137 | in each "Filter Error" section the crop stops at edge 0 with OutsideVertexError, code -1221 |
| MMCellFlag.Succ | src/Plugins/SimplnxCore/src/SimplnxCore/SurfaceNets/MMCellFlag.h:89-98 | the successor of a Face is its ordinal plus one, wrapped to a signed 32-bit value |
| MMCellFlag.Increment | src/Plugins/SimplnxCore/src/SimplnxCore/SurfaceNets/MMCellFlag.h:89-98 | both operator++ forms advance the ordinal by exactly one below the 32-bit limit, and return the updated value |
| MMCellFlag.FieldMasksDisjoint | src/Plugins/SimplnxCore/src/SimplnxCore/SurfaceNets/MMCellFlag.cpp:14-41 | the 20 fields of the word (vertex type, six faces, twelve edges, junction count) are non-empty and share no bit pairwise |
| MMCellFlag.DecodeVertexType | src/Plugins/SimplnxCore/src/SimplnxCore/SurfaceNets/MMCellFlag.cpp:230-251 | vertexType is total: the decoded type's code is exactly the 2-bit vertex field |
| MMCellFlag.DecodeFaceCrossing | src/Plugins/SimplnxCore/src/SimplnxCore/SurfaceNets/MMCellFlag.cpp:252-302 | faceCrossingType returns the crossing type whose code is the face's 2-bit field, a raw 3 decodes as NoFaceCrossing, and a value naming no face gives NoFaceCrossing |
| MMCellFlag.DecodeNumJunctions | src/Plugins/SimplnxCore/src/SimplnxCore/SurfaceNets/MMCellFlag.h:74-80 | numJunctions is the word shifted right by 29, a value below 8 |
| MMCellFlag.PackSections | src/Plugins/SimplnxCore/src/SimplnxCore/SurfaceNets/MMCellFlag.cpp:23-41 | each field of a packed word, read through its own mask and shift, holds that field's code, and the unused bits 26..28 are 0 |
| MMCellFlag.DecodeEdges | src/Plugins/SimplnxCore/src/SimplnxCore/SurfaceNets/MMCellFlag.cpp:303-347 | isEdgeCrossing reads each of the twelve edges from its own bit of the edge section |
| MMCellFlag.DecodeFacesLow | src/Plugins/SimplnxCore/src/SimplnxCore/SurfaceNets/MMCellFlag.cpp:252-302 | faceCrossingType reads back the left, right and back faces from their fields |
| MMCellFlag.DecodeFacesHigh | src/Plugins/SimplnxCore/src/SimplnxCore/SurfaceNets/MMCellFlag.cpp:252-302 | faceCrossingType reads back the front, bottom and top faces from their fields |
| MMCellFlag.DecodeVertex | src/Plugins/SimplnxCore/src/SimplnxCore/SurfaceNets/MMCellFlag.cpp:230-251 | vertexType reads back the type whose code is in the vertex field |
| MMCellFlag.DecodeCount | src/Plugins/SimplnxCore/src/SimplnxCore/SurfaceNets/MMCellFlag.h:74-77 | numJunctions reads back the count stored in the top three bits |
| MMCellFlag.UnpackPack | src/Plugins/SimplnxCore/src/SimplnxCore/SurfaceNets/MMCellFlag.cpp:107-347 | round trip: decoding a packed word with the accessors gives back every field that was written |
| MMCellFlag.EdgeTableIsCube | src/Plugins/SimplnxCore/src/SimplnxCore/SurfaceNets/MMCellFlag.cpp:113-173 | each named edge joins two corners adjacent on the cube, lying on the sides its name says, with corners numbered as set()'s tables use them (0..3 bottom, 4..7 top, each layer going round left-back, right-back, right-front, left-front) |
| MMCellFlag.DocumentedOrderDisagrees | src/Plugins/SimplnxCore/src/SimplnxCore/SurfaceNets/MMCellFlag.h:53-57 | under the corner order the header documents, the ends of LeftBottomEdge and RightBottomEdge are diagonals of the bottom face and corner 7 is right-front-top; under the tables' order corner 7 is left-front-top |
| MMCellFlag.FaceTableIsCube | src/Plugins/SimplnxCore/src/SimplnxCore/SurfaceNets/MMCellFlag.cpp:180-193 | the four corners of each named face go round that face of the cube |
| MMCellFlag.EdgesOfTable | src/Plugins/SimplnxCore/src/SimplnxCore/SurfaceNets/MMCellFlag.cpp:113-173 | an edge of a cell crosses iff the labels at its two corners differ |
| MMCellFlag.FacesOf | src/Plugins/SimplnxCore/src/SimplnxCore/SurfaceNets/MMCellFlag.cpp:180-193 | each face's crossing type is the one its four corner labels give, taken round the face |
| MMCellFlag.CountsBounded | src/Plugins/SimplnxCore/src/SimplnxCore/SurfaceNets/MMCellFlag.cpp:196-208 | the junction count never exceeds the crossed-face count, which never exceeds the faces visited |
| MMCellFlag.Classify | src/Plugins/SimplnxCore/src/SimplnxCore/SurfaceNets/MMCellFlag.h:83-85 | the number of junctions of any cell is at most 6, so it fits in the 3-bit field |
| MMCellFlag.NoFaceCrossingIffUniform | src/Plugins/SimplnxCore/src/SimplnxCore/SurfaceNets/MMCellFlag.cpp:43-104 | a face is uncrossed iff its four corners carry one label |
| MMCellFlag.FaceCrossingSymmetric | src/Plugins/SimplnxCore/src/SimplnxCore/SurfaceNets/MMCellFlag.cpp:43-104 | a face's crossing type does not depend on which corner the walk round it starts at, nor on its direction |
| MMCellFlag.NoEdgeCrossingIffUniform | src/Plugins/SimplnxCore/src/SimplnxCore/SurfaceNets/MMCellFlag.cpp:113-177 | no edge of a cell crosses iff all 8 corners carry the same label |
| MMCellFlag.UniformCellIsEmpty | src/Plugins/SimplnxCore/src/SimplnxCore/SurfaceNets/MMCellFlag.cpp:174-177 | a uniform cell classifies as no vertex, no face or edge crossing and no junction |
| MMCellFlag.VertexIffEdgeCrossing | src/Plugins/SimplnxCore/src/SimplnxCore/SurfaceNets/MMCellFlag.cpp:196-225 | a cell gets a vertex type other than NoVertex iff some edge of it crosses a label boundary |
| MMCellFlag.BottomTopSplitIsSurface | src/Plugins/SimplnxCore/src/SimplnxCore/SurfaceNets/MMCellFlag.cpp:107-229 | a cell with one label on its bottom four corners and another on its top four: bottom and top faces uncrossed, the four side faces surface crossings, only the four vertical edges crossed, a surface vertex with no junctions |
| MMCellFlag.AllDistinctIsCorner | src/Plugins/SimplnxCore/src/SimplnxCore/SurfaceNets/MMCellFlag.cpp:107-229 | a cell whose 8 corner labels are pairwise distinct: every edge crossed, every face a junction, a corner vertex with 6 junctions |
| MMCellFlag.DistinctCard | src/Plugins/SimplnxCore/src/SimplnxCore/SurfaceNets/MMCellFlag.cpp:45-69 | the unique-types list, being duplicate free, holds as many labels as it is long |
| MMCellFlag.AddIfNewElements | src/Plugins/SimplnxCore/src/SimplnxCore/SurfaceNets/MMCellFlag.cpp:45-69 | appending a label only when it is absent keeps the list duplicate free and adds that label to its label set |
| MMCellFlag.FirstSeenCountsDistinct | src/Plugins/SimplnxCore/src/SimplnxCore/SurfaceNets/MMCellFlag.cpp:45-69 | the unique-types search counts the face's distinct labels |
| MMCellFlag.AppendIfNew | src/Plugins/SimplnxCore/src/SimplnxCore/SurfaceNets/MMCellFlag.cpp:45-69 | the search-and-append step stores the label at the end of the list unless it already occurs there |
| MMCellFlag.FaceCrossingTypeAsBits | src/Plugins/SimplnxCore/src/SimplnxCore/SurfaceNets/MMCellFlag.cpp:43-104 | the code is that of the face's crossing type: 1 distinct label none, 2 a surface crossing unless they alternate (then a junction), 3 or 4 a junction |
| MMCellFlag.EdgesAndFacesDecode | src/Plugins/SimplnxCore/src/SimplnxCore/SurfaceNets/MMCellFlag.cpp:196-208 | once the edge and face sections are written, the counting loop's faceCrossingType reads back each face's crossing type |
| MMCellFlag.PackEmpty | src/Plugins/SimplnxCore/src/SimplnxCore/SurfaceNets/MMCellFlag.h:53-68 | an empty cell packs to the word 0 |
| MMCellFlag.CellFlag.constructor | src/Plugins/SimplnxCore/src/SimplnxCore/SurfaceNets/MMCellFlag.h:85 | a new flag holds the word 0 |
| MMCellFlag.CellFlag.Clear | src/Plugins/SimplnxCore/src/SimplnxCore/SurfaceNets/MMCellFlag.h:65-68 | clear() sets the word to 0, which decodes as an empty cell |
| MMCellFlag.CellFlag.MarkEdge | src/Plugins/SimplnxCore/src/SimplnxCore/SurfaceNets/MMCellFlag.cpp:114-118 | one edge test ORs in the edge's bit and counts it exactly when its corner labels differ |
| MMCellFlag.CellFlag.FindBottomEdgeCrossings | src/Plugins/SimplnxCore/src/SimplnxCore/SurfaceNets/MMCellFlag.cpp:114-133 | the four bottom-edge tests add the bits and counts of the crossed bottom edges |
| MMCellFlag.CellFlag.FindTopEdgeCrossings | src/Plugins/SimplnxCore/src/SimplnxCore/SurfaceNets/MMCellFlag.cpp:134-153 | the four top-edge tests add the bits and counts of the crossed top edges |
| MMCellFlag.CellFlag.FindVerticalEdgeCrossings | src/Plugins/SimplnxCore/src/SimplnxCore/SurfaceNets/MMCellFlag.cpp:154-173 | the four vertical-edge tests add the bits and counts of the crossed vertical edges |
| MMCellFlag.CellFlag.FindEdgeCrossings | src/Plugins/SimplnxCore/src/SimplnxCore/SurfaceNets/MMCellFlag.cpp:113-173 | starting from 0, the word becomes the edge section of the cell and the counter the number of crossed edges |
| MMCellFlag.CellFlag.FindFaceCrossings | src/Plugins/SimplnxCore/src/SimplnxCore/SurfaceNets/MMCellFlag.cpp:180-193 | each face's crossing code is ORed into its 2-bit slot |
| MMCellFlag.CellFlag.CountFaceCrossings | src/Plugins/SimplnxCore/src/SimplnxCore/SurfaceNets/MMCellFlag.cpp:196-208 | the loop over the faces counts the crossed faces and the junction faces (at most 6) |
| MMCellFlag.CellFlag.AddVertexType | src/Plugins/SimplnxCore/src/SimplnxCore/SurfaceNets/MMCellFlag.cpp:209-225 | the vertex type is ORed in: none without crossed faces, else surface with 0 junctions, edge with 1-2, corner with more |
| MMCellFlag.CellFlag.AddJunctionCount | src/Plugins/SimplnxCore/src/SimplnxCore/SurfaceNets/MMCellFlag.cpp:227 | with the junction count ORed into bits 29..31 the word is the packed classification |
| MMCellFlag.CellFlag.Set | src/Plugins/SimplnxCore/src/SimplnxCore/SurfaceNets/MMCellFlag.cpp:107-228 | set(cellLabels) leaves the word equal to the packed classification of the cell (and, by UnpackPack, every accessor reads back that classification) |

## Left out

- Coordinates are reals, not 32-bit floats. The rounding of `clip` and the interpolation is not modelled. The float limits `lowest()` and `max()` bound the axes that are not selected. Non-finite coordinates (NaN, infinities) are not modelled.
- The copies of the attribute arrays run in parallel in the source. They are modelled as one sequential loop, and the cancel flag as a boolean input that does not change during the run.
- Attribute matrices are sequences of arrays matched by position, each array a sequence of whole tuples. DataStructure lookup, `dynamic_cast`, data types and component counts are not modelled.
- `resizeTuples` is modelled as keeping the leading tuples and filling new ones with a given value. The data store's real fill value is not modelled.
- The crop's error messages (`fmt` text) and the message handler are not modelled. Only the error codes and their data are kept.
- Crop: the destination geometry's attribute-matrix shapes and the setting of its vertex and edge lists through the geometry API are not modelled. Their effect is the destination class's fields.
- Crop: a boundary behaviour value outside the enum cannot be expressed; it is a datatype with three cases.
- Preflight: copying the source geometry's other children (CropEdgeGeometryFilter.cpp:246-275) is not modelled. The action counts in `CreatesDestination` assume the geometry has no other children. That code builds child paths by replacing the target name in the whole path string.
- Preflight: the `ignorePaths` bookkeeping, the filter's parameter declarations and the lookup of the source geometry are not modelled. The source geometry is a value listing its matrix names and arrays.
- MMCellFlag: the corner order documented at MMCellFlag.h:53-57 (left-to-right, back-to-front, bottom-to-top, corner 7 right-front-top) does not fit set()'s edge and face tables (MMCellFlag.cpp:114-193). The model follows the tables, where each layer goes round and corner 7 is left-front-top, and does not promise the documented order (DocumentedOrderDisagrees).
- MMCellFlag: corner labels are 32-bit integers compared only for equality. The C array passed to `set` is a sequence of 8 labels.
- MMCellFlag: `getBitFlag`, `vertexType`, `faceCrossingType`, `isEdgeCrossing` and `numJunctions` are functions without an `ensures` of their own. What they return is stated by `DecodeVertexType`, `DecodeFaceCrossing`, `DecodeNumJunctions` and `UnpackPack`.
- MMCellFlag.Increment: the conversion of the ordinal to `uint32_t` and back to the enum is modelled as a wrap to a signed 32-bit value. For the ordinals the face loop uses (0..6) this is exactly plus one.
