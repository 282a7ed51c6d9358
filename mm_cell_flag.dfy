/**
 * The SurfaceNets cell flag: the classification of one grid cell, computed from
 * the labels at its 8 corners and packed into a single 32-bit word.
 *
 * Corners are numbered as set()'s edge and face tables use them: 0..3 are the
 * bottom layer and 4..7 the top one, and within a layer the corners go round
 * left-back, right-back, right-front, left-front. So corner 0 is
 * left-back-bottom and corner 7 is left-front-top.
 *
 * Bit layout of the word (least significant bit first):
 *   bits  0..1   vertex type
 *   bits  2..13  six 2-bit face crossing types (Left, Right, Back, Front, Bottom, Top)
 *   bits 14..25  twelve edge crossing bits (in Edge ordinal order)
 *   bits 26..28  unused (always 0)
 *   bits 29..31  number of junction faces
 */
module MMCellFlag {

  newtype Int32 = x: int | -0x8000_0000 <= x < 0x8000_0000

  // ---------------------------------------------------------------------------
  // Enumerations. Their ordinals are fixed by declaration order.
  // ---------------------------------------------------------------------------

  datatype VertexType = NoVertex | SurfaceVertex | EdgeVertex | CornerVertex
  {
    function Ordinal(): nat
    {
      match this
      case NoVertex => 0
      case SurfaceVertex => 1
      case EdgeVertex => 2
      case CornerVertex => 3
    }
  }

  datatype FaceCrossingType = NoFaceCrossing | SurfaceFaceCrossing | JunctionFaceCrossing
  {
    function Ordinal(): nat
    {
      match this
      case NoFaceCrossing => 0
      case SurfaceFaceCrossing => 1
      case JunctionFaceCrossing => 2
    }
  }

  /** Faces and edges are enumerations backed by a 32-bit int, so a value outside
      the named ordinals can be passed to the decoders. */
  type Face = Int32
  type Edge = Int32

  const LeftFace: Face := 0
  const RightFace: Face := 1
  const BackFace: Face := 2
  const FrontFace: Face := 3
  const BottomFace: Face := 4
  const TopFace: Face := 5

  const LeftBottomEdge: Edge := 0
  const RightBottomEdge: Edge := 1
  const BackBottomEdge: Edge := 2
  const FrontBottomEdge: Edge := 3
  const LeftTopEdge: Edge := 4
  const RightTopEdge: Edge := 5
  const BackTopEdge: Edge := 6
  const FrontTopEdge: Edge := 7
  const LeftBackEdge: Edge := 8
  const RightBackEdge: Edge := 9
  const LeftFrontEdge: Edge := 10
  const RightFrontEdge: Edge := 11

  /** The successor used by operator++ on Face: the ordinal is converted to an
      unsigned 32-bit value, incremented, and converted back. */
  function Succ(f: Face): (g: Face)
    ensures g as int == (f as int + 1 + 0x8000_0000) % 0x1_0000_0000 - 0x8000_0000
  {
    if f == 0x7fff_ffff then -0x8000_0000 else f + 1
  }

  /** Prefix and postfix operator++ on a Face variable: both store the successor in
      the variable and both return the stored (advanced) value. */
  method Increment(f: Face) returns (updated: Face, returned: Face)
    ensures f < 0x7fff_ffff ==> updated as int == f as int + 1
    ensures returned == updated
  {
    updated := Succ(f);
    returned := updated;
  }

  // ---------------------------------------------------------------------------
  // Bit layout
  // ---------------------------------------------------------------------------

  const VertexTypeShift: bv32 := 0
  const LeftFaceShift: bv32 := 2
  const RightFaceShift: bv32 := 4
  const BackFaceShift: bv32 := 6
  const FrontFaceShift: bv32 := 8
  const BottomFaceShift: bv32 := 10
  const TopFaceShift: bv32 := 12
  const NumJunctionsBitShift: bv32 := 29

  const VertexTypeBits: bv32 := (1 << VertexTypeShift) | (1 << (VertexTypeShift + 1))
  const LeftFaceCrossingBits: bv32 := (1 << LeftFaceShift) | (1 << (LeftFaceShift + 1))
  const RightFaceCrossingBits: bv32 := (1 << RightFaceShift) | (1 << (RightFaceShift + 1))
  const BackFaceCrossingBits: bv32 := (1 << BackFaceShift) | (1 << (BackFaceShift + 1))
  const FrontFaceCrossingBits: bv32 := (1 << FrontFaceShift) | (1 << (FrontFaceShift + 1))
  const BottomFaceCrossingBits: bv32 := (1 << BottomFaceShift) | (1 << (BottomFaceShift + 1))
  const TopFaceCrossingBits: bv32 := (1 << TopFaceShift) | (1 << (TopFaceShift + 1))
  const LeftBottomEdgeCrossingBit: bv32 := 1 << 14
  const RightBottomEdgeCrossingBit: bv32 := 1 << 15
  const BackBottomEdgeCrossingBit: bv32 := 1 << 16
  const FrontBottomEdgeCrossingBit: bv32 := 1 << 17
  const LeftTopEdgeCrossingBit: bv32 := 1 << 18
  const RightTopEdgeCrossingBit: bv32 := 1 << 19
  const BackTopEdgeCrossingBit: bv32 := 1 << 20
  const FrontTopEdgeCrossingBit: bv32 := 1 << 21
  const LeftBackEdgeCrossingBit: bv32 := 1 << 22
  const RightBackEdgeCrossingBit: bv32 := 1 << 23
  const LeftFrontEdgeCrossingBit: bv32 := 1 << 24
  const RightFrontEdgeCrossingBit: bv32 := 1 << 25
  /** The bits that hold the junction count (the word shifted right by 29). */
  const NumJunctionsBits: bv32 := 0xE000_0000

  /** The mask of the k-th field of the layout, in layout order: the vertex type,
      the six faces, the twelve edges, then the junction count. */
  function FieldMask(k: nat): bv32
    requires k < 20
  {
    match k
    case 0 => VertexTypeBits
    case 1 => LeftFaceCrossingBits
    case 2 => RightFaceCrossingBits
    case 3 => BackFaceCrossingBits
    case 4 => FrontFaceCrossingBits
    case 5 => BottomFaceCrossingBits
    case 6 => TopFaceCrossingBits
    case 7 => LeftBottomEdgeCrossingBit
    case 8 => RightBottomEdgeCrossingBit
    case 9 => BackBottomEdgeCrossingBit
    case 10 => FrontBottomEdgeCrossingBit
    case 11 => LeftTopEdgeCrossingBit
    case 12 => RightTopEdgeCrossingBit
    case 13 => BackTopEdgeCrossingBit
    case 14 => FrontTopEdgeCrossingBit
    case 15 => LeftBackEdgeCrossingBit
    case 16 => RightBackEdgeCrossingBit
    case 17 => LeftFrontEdgeCrossingBit
    case 18 => RightFrontEdgeCrossingBit
    case _ => NumJunctionsBits
  }

  /** The vertex and face fields share no bit with any later field. */
  lemma LowFieldMasksDisjoint()
    ensures forall i, j :: 0 <= i < 7 && i < j < 20 ==> FieldMask(i) & FieldMask(j) == 0
  {
  }

  /** The edge fields share no bit with any later field. */
  lemma HighFieldMasksDisjoint()
    ensures forall i, j :: 7 <= i < j < 20 ==> FieldMask(i) & FieldMask(j) == 0
  {
  }

  /** No two fields of the layout share a bit, and no field is empty. */
  lemma FieldMasksDisjoint()
    ensures forall i, j :: 0 <= i < j < 20 ==> FieldMask(i) & FieldMask(j) == 0
    ensures forall i :: 0 <= i < 20 ==> FieldMask(i) != 0
  {
    LowFieldMasksDisjoint();
    HighFieldMasksDisjoint();
  }

  // ---------------------------------------------------------------------------
  // Codes of the enumerators as they are stored in the word
  // ---------------------------------------------------------------------------

  function VertexTypeCode(t: VertexType): (bits: bv32)
    ensures bits < 4
  {
    match t
    case NoVertex => 0
    case SurfaceVertex => 1
    case EdgeVertex => 2
    case CornerVertex => 3
  }

  function FaceCrossingCode(t: FaceCrossingType): (bits: bv32)
    ensures bits < 3
  {
    match t
    case NoFaceCrossing => 0
    case SurfaceFaceCrossing => 1
    case JunctionFaceCrossing => 2
  }

  /** A junction count below 8 as a bit-vector. */
  function CountCode(n: nat): (bits: bv32)
    requires n < 8
    ensures bits < 8
  {
    match n
    case 0 => 0
    case 1 => 1
    case 2 => 2
    case 3 => 3
    case 4 => 4
    case 5 => 5
    case 6 => 6
    case _ => 7
  }

  // ---------------------------------------------------------------------------
  // Decoders: mask-and-shift reads of the word
  // ---------------------------------------------------------------------------

  /** vertexType(): the vertex type whose code is the 2-bit vertex field. */
  function DecodeVertexType(w: bv32): (t: VertexType)
    ensures VertexTypeCode(t) == (w & VertexTypeBits) >> VertexTypeShift
  {
    var bits := (w & VertexTypeBits) >> VertexTypeShift;
    if bits == 0 then NoVertex
    else if bits == 1 then SurfaceVertex
    else if bits == 2 then EdgeVertex
    else CornerVertex
  }

  /** The mask of a face's 2-bit field, one case per named face. */
  function FaceCrossingBits(face: Face): bv32
    requires LeftFace <= face <= TopFace
  {
    match face
    case 0 => LeftFaceCrossingBits
    case 1 => RightFaceCrossingBits
    case 2 => BackFaceCrossingBits
    case 3 => FrontFaceCrossingBits
    case 4 => BottomFaceCrossingBits
    case _ => TopFaceCrossingBits
  }

  /** The shift of a face's 2-bit field, one case per named face. */
  function FaceShift(face: Face): (shift: bv32)
    requires LeftFace <= face <= TopFace
    ensures shift < 14
  {
    match face
    case 0 => LeftFaceShift
    case 1 => RightFaceShift
    case 2 => BackFaceShift
    case 3 => FrontFaceShift
    case 4 => BottomFaceShift
    case _ => TopFaceShift
  }

  /** The raw 2-bit field of a face; 0 for a value that names no face. */
  function FaceBits(w: bv32, face: Face): (bits: bv32)
    ensures bits < 4
  {
    if LeftFace <= face <= TopFace then (w & FaceCrossingBits(face)) >> FaceShift(face) else 0
  }

  /** faceCrossingType(face): the crossing type whose code is the face's 2-bit
      field; the unused code 3, and any value that names no face, read as
      NoFaceCrossing. */
  function DecodeFaceCrossing(w: bv32, face: Face): (t: FaceCrossingType)
    ensures FaceCrossingCode(t) == if FaceBits(w, face) == 3 then 0 else FaceBits(w, face)
    ensures !(LeftFace <= face <= TopFace) ==> t == NoFaceCrossing
  {
    var bits := FaceBits(w, face);
    if bits == 0 then NoFaceCrossing
    else if bits == 1 then SurfaceFaceCrossing
    else if bits == 2 then JunctionFaceCrossing
    else NoFaceCrossing
  }

  /** The bit of an edge, one case per named edge. */
  function EdgeCrossingBit(edge: Edge): bv32
    requires LeftBottomEdge <= edge <= RightFrontEdge
  {
    match edge
    case 0 => LeftBottomEdgeCrossingBit
    case 1 => RightBottomEdgeCrossingBit
    case 2 => BackBottomEdgeCrossingBit
    case 3 => FrontBottomEdgeCrossingBit
    case 4 => LeftTopEdgeCrossingBit
    case 5 => RightTopEdgeCrossingBit
    case 6 => BackTopEdgeCrossingBit
    case 7 => FrontTopEdgeCrossingBit
    case 8 => LeftBackEdgeCrossingBit
    case 9 => RightBackEdgeCrossingBit
    case 10 => LeftFrontEdgeCrossingBit
    case _ => RightFrontEdgeCrossingBit
  }

  /** isEdgeCrossing(edge): whether the edge's bit is set; false for any value
      that names no edge. */
  function DecodeEdgeCrossing(w: bv32, edge: Edge): bool
  {
    if LeftBottomEdge <= edge <= RightFrontEdge then w & EdgeCrossingBit(edge) > 0 else false
  }

  /** numJunctions(): the word shifted right by 29, a value below 8. */
  function DecodeNumJunctions(w: bv32): (n: nat)
    ensures n < 8 && CountCode(n) == w >> NumJunctionsBitShift
  {
    var bits := w >> NumJunctionsBitShift;
    if bits == 0 then 0
    else if bits == 1 then 1
    else if bits == 2 then 2
    else if bits == 3 then 3
    else if bits == 4 then 4
    else if bits == 5 then 5
    else if bits == 6 then 6
    else 7
  }


  // ---------------------------------------------------------------------------
  // The packed word
  // ---------------------------------------------------------------------------

  /** The bits of the edge section, 14..25. */
  const EdgeFieldBits: bv32 := 0x03FF_C000
  /** The bits no field uses, 26..28. */
  const UnusedBits: bv32 := 0x1C00_0000

  /** The crossing type of each face of a cell. */
  datatype FaceCrossings = FaceCrossings(
    left: FaceCrossingType, right: FaceCrossingType,
    back: FaceCrossingType, front: FaceCrossingType,
    bottom: FaceCrossingType, top: FaceCrossingType)
  {
    /** The crossing type of a face given by ordinal; NoFaceCrossing for a value
        that names no face. */
    function Get(face: Face): FaceCrossingType
    {
      if face == LeftFace then left
      else if face == RightFace then right
      else if face == BackFace then back
      else if face == FrontFace then front
      else if face == BottomFace then bottom
      else if face == TopFace then top
      else NoFaceCrossing
    }
  }

  /** Whether each edge of a cell crosses a label boundary. */
  datatype EdgeCrossings = EdgeCrossings(
    leftBottom: bool,
    rightBottom: bool,
    backBottom: bool,
    frontBottom: bool,
    leftTop: bool,
    rightTop: bool,
    backTop: bool,
    frontTop: bool,
    leftBack: bool,
    rightBack: bool,
    leftFront: bool,
    rightFront: bool)
  {
    /** Whether an edge given by ordinal crosses; false for a value that names
        no edge. */
    function Get(edge: Edge): bool
    {
      if edge == LeftBottomEdge then leftBottom
      else if edge == RightBottomEdge then rightBottom
      else if edge == BackBottomEdge then backBottom
      else if edge == FrontBottomEdge then frontBottom
      else if edge == LeftTopEdge then leftTop
      else if edge == RightTopEdge then rightTop
      else if edge == BackTopEdge then backTop
      else if edge == FrontTopEdge then frontTop
      else if edge == LeftBackEdge then leftBack
      else if edge == RightBackEdge then rightBack
      else if edge == LeftFrontEdge then leftFront
      else if edge == RightFrontEdge then rightFront
      else false
    }
  }

  /** The contents of a cell flag, field by field. */
  datatype CellFields = CellFields(vertex: VertexType, faces: FaceCrossings, edges: EdgeCrossings, numJunctions: nat)

  /** The bit an edge contributes to the edge section: its crossing bit when it
      crosses, 0 otherwise. */
  function EdgeBit(edges: EdgeCrossings, edge: Edge): bv32
  {
    if edges.Get(edge) then EdgeCrossingBit(edge) else 0
  }

  /** 1 for a crossed edge, 0 otherwise. */
  function EdgeCrossed(edges: EdgeCrossings, edge: Edge): nat
  {
    if edges.Get(edge) then 1 else 0
  }

  /** The edge section of a word: the bit of every crossed edge, ORed together
      in the order set() tests the edges. */
  function EdgeWord(edges: EdgeCrossings): bv32
  {
    EdgeBit(edges, LeftBottomEdge)
    | EdgeBit(edges, RightBottomEdge)
    | EdgeBit(edges, BackBottomEdge)
    | EdgeBit(edges, FrontBottomEdge)
    | EdgeBit(edges, LeftTopEdge)
    | EdgeBit(edges, RightTopEdge)
    | EdgeBit(edges, BackTopEdge)
    | EdgeBit(edges, FrontTopEdge)
    | EdgeBit(edges, LeftBackEdge)
    | EdgeBit(edges, RightBackEdge)
    | EdgeBit(edges, LeftFrontEdge)
    | EdgeBit(edges, RightFrontEdge)
  }

  /** The number of crossed edges. */
  function EdgeCount(edges: EdgeCrossings): nat
  {
    EdgeCrossed(edges, LeftBottomEdge)
    + EdgeCrossed(edges, RightBottomEdge)
    + EdgeCrossed(edges, BackBottomEdge)
    + EdgeCrossed(edges, FrontBottomEdge)
    + EdgeCrossed(edges, LeftTopEdge)
    + EdgeCrossed(edges, RightTopEdge)
    + EdgeCrossed(edges, BackTopEdge)
    + EdgeCrossed(edges, FrontTopEdge)
    + EdgeCrossed(edges, LeftBackEdge)
    + EdgeCrossed(edges, RightBackEdge)
    + EdgeCrossed(edges, LeftFrontEdge)
    + EdgeCrossed(edges, RightFrontEdge)
  }

  /** The word that holds the given fields, ORed together in the order set()
      writes them: edges, faces, vertex type, junction count. */
  function Pack(f: CellFields): bv32
    requires f.numJunctions < 8
  {
    EdgeWord(f.edges)
    | (FaceCrossingCode(f.faces.left) << LeftFaceShift)
    | (FaceCrossingCode(f.faces.right) << RightFaceShift)
    | (FaceCrossingCode(f.faces.back) << BackFaceShift)
    | (FaceCrossingCode(f.faces.front) << FrontFaceShift)
    | (FaceCrossingCode(f.faces.bottom) << BottomFaceShift)
    | (FaceCrossingCode(f.faces.top) << TopFaceShift)
    | (VertexTypeCode(f.vertex) << VertexTypeShift)
    | (CountCode(f.numJunctions) << NumJunctionsBitShift)
  }

  /** Every field of a word, read back with the decoders. */
  function Unpack(w: bv32): (f: CellFields)
    ensures f.numJunctions < 8
  {
    CellFields(
      DecodeVertexType(w),
      FaceCrossings(
        DecodeFaceCrossing(w, LeftFace),
        DecodeFaceCrossing(w, RightFace),
        DecodeFaceCrossing(w, BackFace),
        DecodeFaceCrossing(w, FrontFace),
        DecodeFaceCrossing(w, BottomFace),
        DecodeFaceCrossing(w, TopFace)),
      EdgeCrossings(
        DecodeEdgeCrossing(w, LeftBottomEdge),
        DecodeEdgeCrossing(w, RightBottomEdge),
        DecodeEdgeCrossing(w, BackBottomEdge),
        DecodeEdgeCrossing(w, FrontBottomEdge),
        DecodeEdgeCrossing(w, LeftTopEdge),
        DecodeEdgeCrossing(w, RightTopEdge),
        DecodeEdgeCrossing(w, BackTopEdge),
        DecodeEdgeCrossing(w, FrontTopEdge),
        DecodeEdgeCrossing(w, LeftBackEdge),
        DecodeEdgeCrossing(w, RightBackEdge),
        DecodeEdgeCrossing(w, LeftFrontEdge),
        DecodeEdgeCrossing(w, RightFrontEdge)),
      DecodeNumJunctions(w))
  }

  /** Reading the fields of a word assembled from an edge section, six 2-bit
      face codes, a vertex code and a 3-bit count gives back each part. */
  lemma SectionsApart(e: bv32, c0: bv32, c1: bv32, c2: bv32, c3: bv32, c4: bv32, c5: bv32, v: bv32, n: bv32)
    requires e & !EdgeFieldBits == 0
    requires c0 < 4 && c1 < 4 && c2 < 4 && c3 < 4 && c4 < 4 && c5 < 4 && v < 4 && n < 8
    ensures var w := e | (c0 << LeftFaceShift) | (c1 << RightFaceShift) | (c2 << BackFaceShift)
        | (c3 << FrontFaceShift) | (c4 << BottomFaceShift) | (c5 << TopFaceShift)
        | (v << VertexTypeShift) | (n << NumJunctionsBitShift);
      && (w & VertexTypeBits) >> VertexTypeShift == v
      && (w & LeftFaceCrossingBits) >> LeftFaceShift == c0
      && (w & RightFaceCrossingBits) >> RightFaceShift == c1
      && (w & BackFaceCrossingBits) >> BackFaceShift == c2
      && (w & FrontFaceCrossingBits) >> FrontFaceShift == c3
      && (w & BottomFaceCrossingBits) >> BottomFaceShift == c4
      && (w & TopFaceCrossingBits) >> TopFaceShift == c5
      && w >> NumJunctionsBitShift == n
      && w & EdgeFieldBits == e
      && w & UnusedBits == 0
  {
  }

  /** The bit each named edge contributes to the edge section. */
  lemma EdgeBitValues(edges: EdgeCrossings)
    ensures EdgeBit(edges, LeftBottomEdge) == (if edges.leftBottom then LeftBottomEdgeCrossingBit else 0)
      && EdgeBit(edges, RightBottomEdge) == (if edges.rightBottom then RightBottomEdgeCrossingBit else 0)
      && EdgeBit(edges, BackBottomEdge) == (if edges.backBottom then BackBottomEdgeCrossingBit else 0)
      && EdgeBit(edges, FrontBottomEdge) == (if edges.frontBottom then FrontBottomEdgeCrossingBit else 0)
      && EdgeBit(edges, LeftTopEdge) == (if edges.leftTop then LeftTopEdgeCrossingBit else 0)
      && EdgeBit(edges, RightTopEdge) == (if edges.rightTop then RightTopEdgeCrossingBit else 0)
      && EdgeBit(edges, BackTopEdge) == (if edges.backTop then BackTopEdgeCrossingBit else 0)
      && EdgeBit(edges, FrontTopEdge) == (if edges.frontTop then FrontTopEdgeCrossingBit else 0)
      && EdgeBit(edges, LeftBackEdge) == (if edges.leftBack then LeftBackEdgeCrossingBit else 0)
      && EdgeBit(edges, RightBackEdge) == (if edges.rightBack then RightBackEdgeCrossingBit else 0)
      && EdgeBit(edges, LeftFrontEdge) == (if edges.leftFront then LeftFrontEdgeCrossingBit else 0)
      && EdgeBit(edges, RightFrontEdge) == (if edges.rightFront then RightFrontEdgeCrossingBit else 0)
  {
  }

  /** An edge section has no bit outside bits 14..25. */
  lemma EdgeSectionInField(edges: EdgeCrossings)
    ensures EdgeWord(edges) & !EdgeFieldBits == 0
  {
    EdgeBitValues(edges);
  }

  /** The bits of edges 0..3 in an edge section. */
  lemma EdgeSectionBits0(edges: EdgeCrossings)
    ensures var e := EdgeWord(edges);
      (e & LeftBottomEdgeCrossingBit > 0) == edges.leftBottom
      && (e & RightBottomEdgeCrossingBit > 0) == edges.rightBottom
      && (e & BackBottomEdgeCrossingBit > 0) == edges.backBottom
      && (e & FrontBottomEdgeCrossingBit > 0) == edges.frontBottom
  {
    EdgeBitValues(edges);
  }

  /** The bits of edges 4..7 in an edge section. */
  lemma EdgeSectionBits4(edges: EdgeCrossings)
    ensures var e := EdgeWord(edges);
      (e & LeftTopEdgeCrossingBit > 0) == edges.leftTop
      && (e & RightTopEdgeCrossingBit > 0) == edges.rightTop
      && (e & BackTopEdgeCrossingBit > 0) == edges.backTop
      && (e & FrontTopEdgeCrossingBit > 0) == edges.frontTop
  {
    EdgeBitValues(edges);
  }

  /** The bits of edges 8..11 in an edge section. */
  lemma EdgeSectionBits8(edges: EdgeCrossings)
    ensures var e := EdgeWord(edges);
      (e & LeftBackEdgeCrossingBit > 0) == edges.leftBack
      && (e & RightBackEdgeCrossingBit > 0) == edges.rightBack
      && (e & LeftFrontEdgeCrossingBit > 0) == edges.leftFront
      && (e & RightFrontEdgeCrossingBit > 0) == edges.rightFront
  {
    EdgeBitValues(edges);
  }

  /** A mask inside a field reads the same bits of a word as of that field's part. */
  lemma SubMask(w: bv32, field: bv32, part: bv32, m: bv32)
    requires w & field == part
    requires m & field == m
    ensures w & m == part & m
  {
  }

  /** The sections of a packed word, each read through its own mask. */
  lemma PackSections(f: CellFields)
    requires f.numJunctions < 8
    ensures var w := Pack(f);
      && (w & VertexTypeBits) >> VertexTypeShift == VertexTypeCode(f.vertex)
      && (w & LeftFaceCrossingBits) >> LeftFaceShift == FaceCrossingCode(f.faces.left)
      && (w & RightFaceCrossingBits) >> RightFaceShift == FaceCrossingCode(f.faces.right)
      && (w & BackFaceCrossingBits) >> BackFaceShift == FaceCrossingCode(f.faces.back)
      && (w & FrontFaceCrossingBits) >> FrontFaceShift == FaceCrossingCode(f.faces.front)
      && (w & BottomFaceCrossingBits) >> BottomFaceShift == FaceCrossingCode(f.faces.bottom)
      && (w & TopFaceCrossingBits) >> TopFaceShift == FaceCrossingCode(f.faces.top)
      && w >> NumJunctionsBitShift == CountCode(f.numJunctions)
      && w & EdgeFieldBits == EdgeWord(f.edges)
      && w & UnusedBits == 0
  {
    EdgeSectionInField(f.edges);
    SectionsApart(EdgeWord(f.edges),
      FaceCrossingCode(f.faces.left), FaceCrossingCode(f.faces.right), FaceCrossingCode(f.faces.back),
      FaceCrossingCode(f.faces.front), FaceCrossingCode(f.faces.bottom), FaceCrossingCode(f.faces.top),
      VertexTypeCode(f.vertex), CountCode(f.numJunctions));
  }

  /** isEdgeCrossing of a named edge whose bit lies in the edge section reads
      that bit of the section e. */
  lemma DecodeEdge(w: bv32, e: bv32, edge: Edge, bit: bv32)
    requires LeftBottomEdge <= edge <= RightFrontEdge && bit == EdgeCrossingBit(edge)
    requires bit & EdgeFieldBits == bit
    requires w & EdgeFieldBits == e
    ensures DecodeEdgeCrossing(w, edge) == (e & bit > 0)
  {
    SubMask(w, EdgeFieldBits, e, bit);
  }

  /** isEdgeCrossing reads every edge bit of a word from its edge section e. */
  lemma DecodeEdges(w: bv32, e: bv32, edges: EdgeCrossings)
    requires w & EdgeFieldBits == e
    requires (e & LeftBottomEdgeCrossingBit > 0) == edges.leftBottom
      && (e & RightBottomEdgeCrossingBit > 0) == edges.rightBottom
      && (e & BackBottomEdgeCrossingBit > 0) == edges.backBottom
      && (e & FrontBottomEdgeCrossingBit > 0) == edges.frontBottom
      && (e & LeftTopEdgeCrossingBit > 0) == edges.leftTop
      && (e & RightTopEdgeCrossingBit > 0) == edges.rightTop
      && (e & BackTopEdgeCrossingBit > 0) == edges.backTop
      && (e & FrontTopEdgeCrossingBit > 0) == edges.frontTop
      && (e & LeftBackEdgeCrossingBit > 0) == edges.leftBack
      && (e & RightBackEdgeCrossingBit > 0) == edges.rightBack
      && (e & LeftFrontEdgeCrossingBit > 0) == edges.leftFront
      && (e & RightFrontEdgeCrossingBit > 0) == edges.rightFront
    ensures EdgeCrossings(
      DecodeEdgeCrossing(w, LeftBottomEdge),
      DecodeEdgeCrossing(w, RightBottomEdge),
      DecodeEdgeCrossing(w, BackBottomEdge),
      DecodeEdgeCrossing(w, FrontBottomEdge),
      DecodeEdgeCrossing(w, LeftTopEdge),
      DecodeEdgeCrossing(w, RightTopEdge),
      DecodeEdgeCrossing(w, BackTopEdge),
      DecodeEdgeCrossing(w, FrontTopEdge),
      DecodeEdgeCrossing(w, LeftBackEdge),
      DecodeEdgeCrossing(w, RightBackEdge),
      DecodeEdgeCrossing(w, LeftFrontEdge),
      DecodeEdgeCrossing(w, RightFrontEdge)) == edges
  {
    DecodeEdge(w, e, LeftBottomEdge, LeftBottomEdgeCrossingBit);
    DecodeEdge(w, e, RightBottomEdge, RightBottomEdgeCrossingBit);
    DecodeEdge(w, e, BackBottomEdge, BackBottomEdgeCrossingBit);
    DecodeEdge(w, e, FrontBottomEdge, FrontBottomEdgeCrossingBit);
    DecodeEdge(w, e, LeftTopEdge, LeftTopEdgeCrossingBit);
    DecodeEdge(w, e, RightTopEdge, RightTopEdgeCrossingBit);
    DecodeEdge(w, e, BackTopEdge, BackTopEdgeCrossingBit);
    DecodeEdge(w, e, FrontTopEdge, FrontTopEdgeCrossingBit);
    DecodeEdge(w, e, LeftBackEdge, LeftBackEdgeCrossingBit);
    DecodeEdge(w, e, RightBackEdge, RightBackEdgeCrossingBit);
    DecodeEdge(w, e, LeftFrontEdge, LeftFrontEdgeCrossingBit);
    DecodeEdge(w, e, RightFrontEdge, RightFrontEdgeCrossingBit);
  }

  /** faceCrossingType of a named face whose 2-bit field holds a crossing
      type's code gives back that crossing type. */
  lemma DecodeFace(w: bv32, face: Face, t: FaceCrossingType)
    requires LeftFace <= face <= TopFace
    requires (w & FaceCrossingBits(face)) >> FaceShift(face) == FaceCrossingCode(t)
    ensures DecodeFaceCrossing(w, face) == t
  {
  }

  /** faceCrossingType reads the left, right, back faces of a word from their fields. */
  lemma DecodeFacesLow(w: bv32, faces: FaceCrossings)
    requires (w & LeftFaceCrossingBits) >> LeftFaceShift == FaceCrossingCode(faces.left)
      && (w & RightFaceCrossingBits) >> RightFaceShift == FaceCrossingCode(faces.right)
      && (w & BackFaceCrossingBits) >> BackFaceShift == FaceCrossingCode(faces.back)
    ensures DecodeFaceCrossing(w, LeftFace) == faces.left
      && DecodeFaceCrossing(w, RightFace) == faces.right
      && DecodeFaceCrossing(w, BackFace) == faces.back
  {
    DecodeFace(w, LeftFace, faces.left);
    DecodeFace(w, RightFace, faces.right);
    DecodeFace(w, BackFace, faces.back);
  }

  /** faceCrossingType reads the front, bottom, top faces of a word from their fields. */
  lemma DecodeFacesHigh(w: bv32, faces: FaceCrossings)
    requires (w & FrontFaceCrossingBits) >> FrontFaceShift == FaceCrossingCode(faces.front)
      && (w & BottomFaceCrossingBits) >> BottomFaceShift == FaceCrossingCode(faces.bottom)
      && (w & TopFaceCrossingBits) >> TopFaceShift == FaceCrossingCode(faces.top)
    ensures DecodeFaceCrossing(w, FrontFace) == faces.front
      && DecodeFaceCrossing(w, BottomFace) == faces.bottom
      && DecodeFaceCrossing(w, TopFace) == faces.top
  {
    DecodeFace(w, FrontFace, faces.front);
    DecodeFace(w, BottomFace, faces.bottom);
    DecodeFace(w, TopFace, faces.top);
  }

  /** vertexType reads back the vertex type whose code is in the vertex field. */
  lemma DecodeVertex(w: bv32, t: VertexType)
    requires (w & VertexTypeBits) >> VertexTypeShift == VertexTypeCode(t)
    ensures DecodeVertexType(w) == t
  {
  }

  /** numJunctions reads back the count held in the top three bits. */
  lemma DecodeCount(w: bv32, n: nat)
    requires n < 8 && w >> NumJunctionsBitShift == CountCode(n)
    ensures DecodeNumJunctions(w) == n
  {
  }

  /** Decoding a word whose sections hold the codes of the given fields gives
      back those fields. */
  lemma UnpackSections(w: bv32, f: CellFields)
    requires f.numJunctions < 8
    requires (w & VertexTypeBits) >> VertexTypeShift == VertexTypeCode(f.vertex)
    requires (w & LeftFaceCrossingBits) >> LeftFaceShift == FaceCrossingCode(f.faces.left)
    requires (w & RightFaceCrossingBits) >> RightFaceShift == FaceCrossingCode(f.faces.right)
    requires (w & BackFaceCrossingBits) >> BackFaceShift == FaceCrossingCode(f.faces.back)
    requires (w & FrontFaceCrossingBits) >> FrontFaceShift == FaceCrossingCode(f.faces.front)
    requires (w & BottomFaceCrossingBits) >> BottomFaceShift == FaceCrossingCode(f.faces.bottom)
    requires (w & TopFaceCrossingBits) >> TopFaceShift == FaceCrossingCode(f.faces.top)
    requires w >> NumJunctionsBitShift == CountCode(f.numJunctions)
    requires w & EdgeFieldBits == EdgeWord(f.edges)
    ensures Unpack(w) == f
  {
    EdgeSectionBits0(f.edges);
    EdgeSectionBits4(f.edges);
    EdgeSectionBits8(f.edges);
    DecodeEdges(w, EdgeWord(f.edges), f.edges);
    DecodeFacesLow(w, f.faces);
    DecodeFacesHigh(w, f.faces);
    DecodeVertex(w, f.vertex);
    DecodeCount(w, f.numJunctions);
  }

  /** Round trip: decoding a packed word gives back every field. */
  lemma UnpackPack(f: CellFields)
    requires f.numJunctions < 8
    ensures Unpack(Pack(f)) == f
  {
    PackSections(f);
    UnpackSections(Pack(f), f);
  }

  // ---------------------------------------------------------------------------
  // Cell geometry: corners, edges and faces
  // ---------------------------------------------------------------------------

  /** Corner positions: corners 0..3 are the bottom layer and 4..7 the top one;
      within a layer the corners go round left-back, right-back, right-front,
      left-front. Each coordinate is 0 or 1. */
  function CornerX(corner: nat): nat
  {
    if corner % 4 == 1 || corner % 4 == 2 then 1 else 0
  }

  function CornerY(corner: nat): nat
  {
    if corner % 4 >= 2 then 1 else 0
  }

  function CornerZ(corner: nat): nat
  {
    if corner >= 4 then 1 else 0
  }

  /** The two corners joined by a named edge. */
  function EdgeEnds(edge: Edge): (ends: (nat, nat))
    requires LeftBottomEdge <= edge <= RightFrontEdge
    ensures ends.0 < 8 && ends.1 < 8
  {
    match edge
    case 0 => (0, 3)
    case 1 => (1, 2)
    case 2 => (0, 1)
    case 3 => (2, 3)
    case 4 => (4, 7)
    case 5 => (5, 6)
    case 6 => (4, 5)
    case 7 => (6, 7)
    case 8 => (0, 4)
    case 9 => (1, 5)
    case 10 => (3, 7)
    case _ => (2, 6)
  }

  /** The four corners of a named face, in order round the face. */
  function FaceCorners(face: Face): (corners: (nat, nat, nat, nat))
    requires LeftFace <= face <= TopFace
    ensures corners.0 < 8 && corners.1 < 8 && corners.2 < 8 && corners.3 < 8
  {
    match face
    case 0 => (0, 3, 7, 4)
    case 1 => (1, 2, 6, 5)
    case 2 => (0, 1, 5, 4)
    case 3 => (3, 2, 6, 7)
    case 4 => (0, 1, 2, 3)
    case _ => (4, 5, 6, 7)
  }

  /** The corner numbering the class's documentation gives, left-to-right,
      back-to-front, bottom-to-top: x varies fastest, then y, then z. */
  function DocumentedCornerX(corner: nat): nat
  {
    corner % 2
  }

  function DocumentedCornerY(corner: nat): nat
  {
    (corner / 2) % 2
  }

  function DocumentedCornerZ(corner: nat): nat
  {
    corner / 4
  }

  /** The documented numbering does not fit set()'s tables: under it the ends of
      LeftBottomEdge and of RightBottomEdge differ along two axes (they are
      diagonals of the bottom face), and corner 7 is right-front-top, whereas in
      the going-round numbering the tables describe it is left-front-top. */
  lemma DocumentedOrderDisagrees()
    ensures var (a, b) := EdgeEnds(LeftBottomEdge);
      DocumentedCornerX(a) != DocumentedCornerX(b) && DocumentedCornerY(a) != DocumentedCornerY(b)
    ensures var (a, b) := EdgeEnds(RightBottomEdge);
      DocumentedCornerX(a) != DocumentedCornerX(b) && DocumentedCornerY(a) != DocumentedCornerY(b)
    ensures DocumentedCornerX(7) == 1 && DocumentedCornerY(7) == 1 && DocumentedCornerZ(7) == 1
    ensures CornerX(7) == 0 && CornerY(7) == 1 && CornerZ(7) == 1
  {
  }

  /** Corners that differ along exactly one axis: the ends of a cell edge. */
  predicate Adjacent(a: nat, b: nat)
  {
    (if CornerX(a) == CornerX(b) then 0 else 1)
    + (if CornerY(a) == CornerY(b) then 0 else 1)
    + (if CornerZ(a) == CornerZ(b) then 0 else 1) == 1
  }

  /** The edge table describes a cube: every named edge joins two adjacent corners
      below 8, and the edge's name gives the sides it lies on. */
  lemma EdgeTableIsCube(edge: Edge)
    requires LeftBottomEdge <= edge <= RightFrontEdge
    ensures var (a, b) := EdgeEnds(edge);
      a < 8 && b < 8 && Adjacent(a, b)
    ensures var (a, b) := EdgeEnds(edge);
      && (edge in {LeftBottomEdge, LeftTopEdge, LeftBackEdge, LeftFrontEdge} ==> CornerX(a) == CornerX(b) == 0)
      && (edge in {RightBottomEdge, RightTopEdge, RightBackEdge, RightFrontEdge} ==> CornerX(a) == CornerX(b) == 1)
      && (edge in {BackBottomEdge, BackTopEdge, LeftBackEdge, RightBackEdge} ==> CornerY(a) == CornerY(b) == 0)
      && (edge in {FrontBottomEdge, FrontTopEdge, LeftFrontEdge, RightFrontEdge} ==> CornerY(a) == CornerY(b) == 1)
      && (edge in {LeftBottomEdge, RightBottomEdge, BackBottomEdge, FrontBottomEdge} ==> CornerZ(a) == CornerZ(b) == 0)
      && (edge in {LeftTopEdge, RightTopEdge, BackTopEdge, FrontTopEdge} ==> CornerZ(a) == CornerZ(b) == 1)
  {
  }

  /** The face table describes a cube: the corners of each named face lie on that
      side, and successive corners round the face are adjacent. */
  lemma FaceTableIsCube(face: Face)
    requires LeftFace <= face <= TopFace
    ensures var (a, b, c, d) := FaceCorners(face);
      && Adjacent(a, b) && Adjacent(b, c) && Adjacent(c, d) && Adjacent(d, a)
      && (face == LeftFace ==> CornerX(a) == CornerX(b) == CornerX(c) == CornerX(d) == 0)
      && (face == RightFace ==> CornerX(a) == CornerX(b) == CornerX(c) == CornerX(d) == 1)
      && (face == BackFace ==> CornerY(a) == CornerY(b) == CornerY(c) == CornerY(d) == 0)
      && (face == FrontFace ==> CornerY(a) == CornerY(b) == CornerY(c) == CornerY(d) == 1)
      && (face == BottomFace ==> CornerZ(a) == CornerZ(b) == CornerZ(c) == CornerZ(d) == 0)
      && (face == TopFace ==> CornerZ(a) == CornerZ(b) == CornerZ(c) == CornerZ(d) == 1)
  {
  }

  // ---------------------------------------------------------------------------
  // Classification of a cell from its corner labels
  // ---------------------------------------------------------------------------

  /** A named edge crosses a label boundary when its two corner labels differ. */
  predicate EdgeCrosses(labels: seq<Int32>, edge: Edge)
    requires |labels| == 8 && LeftBottomEdge <= edge <= RightFrontEdge
  {
    labels[EdgeEnds(edge).0] != labels[EdgeEnds(edge).1]
  }

  /** The edge crossings of a cell, edge by edge. */
  function EdgesOf(labels: seq<Int32>): EdgeCrossings
    requires |labels| == 8
  {
    EdgeCrossings(
      labels[0] != labels[3], labels[1] != labels[2], labels[0] != labels[1], labels[2] != labels[3],
      labels[4] != labels[7], labels[5] != labels[6], labels[4] != labels[5], labels[6] != labels[7],
      labels[0] != labels[4], labels[1] != labels[5], labels[3] != labels[7], labels[2] != labels[6])
  }

  /** Each named edge of a cell crosses iff its two corner labels in the edge
      table differ. */
  lemma EdgesOfTable(labels: seq<Int32>, edge: Edge)
    requires |labels| == 8 && LeftBottomEdge <= edge <= RightFrontEdge
    ensures EdgesOf(labels).Get(edge) == EdgeCrosses(labels, edge)
  {
  }

  /** The crossing type of a face from the labels at its four corners, taken
      round the face: one distinct label is no crossing; two distinct labels are
      a surface crossing, unless they alternate round the face (a checkerboard),
      which is a junction; three or four distinct labels are a junction. */
  function FaceCrossingFor(c0: Int32, c1: Int32, c2: Int32, c3: Int32): FaceCrossingType
  {
    var distinct := |{c0, c1, c2, c3}|;
    if distinct <= 1 then NoFaceCrossing
    else if distinct == 2 then (if c0 == c2 && c1 == c3 then JunctionFaceCrossing else SurfaceFaceCrossing)
    else JunctionFaceCrossing
  }

  /** The crossing type of a named face of a cell. */
  function FaceCrossingOf(labels: seq<Int32>, face: Face): FaceCrossingType
    requires |labels| == 8 && LeftFace <= face <= TopFace
  {
    var (a, b, c, d) := FaceCorners(face);
    FaceCrossingFor(labels[a], labels[b], labels[c], labels[d])
  }

  /** The face crossings of a cell, face by face. */
  function FacesOf(labels: seq<Int32>): (faces: FaceCrossings)
    requires |labels| == 8
    ensures forall face: Face :: LeftFace <= face <= TopFace ==> faces.Get(face) == FaceCrossingOf(labels, face)
  {
    FaceCrossings(
      FaceCrossingOf(labels, LeftFace),
      FaceCrossingOf(labels, RightFace),
      FaceCrossingOf(labels, BackFace),
      FaceCrossingOf(labels, FrontFace),
      FaceCrossingOf(labels, BottomFace),
      FaceCrossingOf(labels, TopFace))
  }

  /** The number of faces with ordinal below n that are crossed. */
  function CountCrossings(faces: FaceCrossings, n: nat): nat
    requires n <= 6
  {
    if n == 0 then 0
    else CountCrossings(faces, n - 1) + (if faces.Get((n - 1) as Face) != NoFaceCrossing then 1 else 0)
  }

  /** The number of faces with ordinal below n that are junction crossings. */
  function CountJunctions(faces: FaceCrossings, n: nat): nat
    requires n <= 6
  {
    if n == 0 then 0
    else CountJunctions(faces, n - 1) + (if faces.Get((n - 1) as Face) == JunctionFaceCrossing then 1 else 0)
  }

  /** One more face counted: each count grows by one exactly when the face is
      crossed (resp. a junction), and the junction counter's code grows with it. */
  lemma CountStep(faces: FaceCrossings, n: nat)
    requires n < 6 && CountJunctions(faces, n) <= n
    ensures CountCrossings(faces, n + 1)
      == CountCrossings(faces, n) + (if faces.Get(n as Face) != NoFaceCrossing then 1 else 0)
    ensures CountJunctions(faces, n + 1) <= n + 1
    ensures CountCode(CountJunctions(faces, n + 1))
      == CountCode(CountJunctions(faces, n)) + (if faces.Get(n as Face) == JunctionFaceCrossing then 1 else 0)
  {
  }

  /** Junction faces are crossed faces, so neither count exceeds the faces counted. */
  lemma {:induction false} CountsBounded(faces: FaceCrossings, n: nat)
    requires n <= 6
    ensures CountJunctions(faces, n) <= CountCrossings(faces, n) <= n
  {
    if n > 0 {
      CountsBounded(faces, n - 1);
    }
  }

  /** The vertex type of a cell: none without a face crossing; otherwise a
      surface vertex without junction faces, an edge vertex with one or two, a
      corner vertex with more. */
  function VertexTypeFor(faces: FaceCrossings): VertexType
  {
    if CountCrossings(faces, 6) == 0 then NoVertex
    else if CountJunctions(faces, 6) < 1 then SurfaceVertex
    else if CountJunctions(faces, 6) <= 2 then EdgeVertex
    else CornerVertex
  }

  /** The full classification of a cell from its 8 corner labels. */
  function Classify(labels: seq<Int32>): (f: CellFields)
    requires |labels| == 8
    ensures f.numJunctions <= 6
  {
    var faces := FacesOf(labels);
    CountsBounded(faces, 6);
    CellFields(VertexTypeFor(faces), faces, EdgesOf(labels), CountJunctions(faces, 6))
  }

  /** The contents of an empty cell: no vertex, no crossed face or edge, no junctions. */
  const EmptyCell := CellFields(
    NoVertex,
    FaceCrossings(NoFaceCrossing, NoFaceCrossing, NoFaceCrossing, NoFaceCrossing, NoFaceCrossing, NoFaceCrossing),
    EdgeCrossings(false, false, false, false, false, false, false, false, false, false, false, false),
    0)

  /** A cell whose 8 corners all carry the same label. */
  predicate Uniform(labels: seq<Int32>)
    requires |labels| == 8
  {
    forall i :: 0 <= i < 8 ==> labels[i] == labels[0]
  }

  /** A face is uncrossed iff its four corners carry one label. */
  lemma NoFaceCrossingIffUniform(c0: Int32, c1: Int32, c2: Int32, c3: Int32)
    ensures FaceCrossingFor(c0, c1, c2, c3) == NoFaceCrossing <==> c0 == c1 == c2 == c3
  {
    if c0 == c1 == c2 == c3 {
      assert {c0, c1, c2, c3} == {c0};
    } else {
      var other := if c1 != c0 then c1 else if c2 != c0 then c2 else c3;
      assert {c0, other} <= {c0, c1, c2, c3};
      assert |{c0, other}| == 2;
    }
  }

  /** The crossing type of a face does not depend on the corner the walk round it
      starts from, nor on its direction. */
  lemma FaceCrossingSymmetric(c0: Int32, c1: Int32, c2: Int32, c3: Int32)
    ensures FaceCrossingFor(c1, c2, c3, c0) == FaceCrossingFor(c0, c1, c2, c3)
    ensures FaceCrossingFor(c3, c2, c1, c0) == FaceCrossingFor(c0, c1, c2, c3)
  {
    assert {c1, c2, c3, c0} == {c0, c1, c2, c3};
    assert {c3, c2, c1, c0} == {c0, c1, c2, c3};
  }

  /** No edge of a cell crosses iff the cell is uniform: the edges connect all
      8 corners. */
  lemma NoEdgeCrossingIffUniform(labels: seq<Int32>)
    requires |labels| == 8
    ensures EdgesOf(labels) == EmptyCell.edges <==> Uniform(labels)
  {
    var edges := EdgesOf(labels);
    if edges == EmptyCell.edges {
      assert labels[1] == labels[0] by { assert !edges.Get(BackBottomEdge); }
      assert labels[2] == labels[1] by { assert !edges.Get(RightBottomEdge); }
      assert labels[3] == labels[0] by { assert !edges.Get(LeftBottomEdge); }
      assert labels[4] == labels[0] by { assert !edges.Get(LeftBackEdge); }
      assert labels[5] == labels[1] by { assert !edges.Get(RightBackEdge); }
      assert labels[6] == labels[2] by { assert !edges.Get(RightFrontEdge); }
      assert labels[7] == labels[3] by { assert !edges.Get(LeftFrontEdge); }
    }
  }

  /** No edge is counted iff no edge crosses. */
  lemma NoEdgeCounted(edges: EdgeCrossings)
    ensures EdgeCount(edges) == 0 <==> edges == EmptyCell.edges
  {
  }

  /** A uniform cell classifies as empty. */
  lemma UniformCellIsEmpty(labels: seq<Int32>)
    requires |labels| == 8 && Uniform(labels)
    ensures Classify(labels) == EmptyCell
  {
    NoEdgeCrossingIffUniform(labels);
    var l := labels[0];
    NoFaceCrossingIffUniform(l, l, l, l);
  }

  /** A cell has a vertex iff some edge of it crosses a label boundary: a crossed
      edge makes the faces on it crossed. */
  lemma VertexIffEdgeCrossing(labels: seq<Int32>)
    requires |labels| == 8
    ensures Classify(labels).vertex != NoVertex <==> EdgesOf(labels) != EmptyCell.edges
  {
    NoEdgeCrossingIffUniform(labels);
    if Uniform(labels) {
      UniformCellIsEmpty(labels);
    }
    var faces := FacesOf(labels);
    if CountCrossings(faces, 6) == 0 {
      // Left, right and bottom faces uncrossed: all 8 corners carry one label.
      NoCrossingsMeansNone(faces);
      NoFaceCrossingIffUniform(labels[0], labels[3], labels[7], labels[4]);
      NoFaceCrossingIffUniform(labels[1], labels[2], labels[6], labels[5]);
      NoFaceCrossingIffUniform(labels[0], labels[1], labels[2], labels[3]);
    }
  }

  /** A cell split by a horizontal plane, one label below and another above: the
      bottom and top faces are uncrossed, the four side faces are surface
      crossings, only the four vertical edges cross, and the cell holds a
      surface vertex with no junctions. */
  lemma BottomTopSplitIsSurface(a: Int32, b: Int32)
    requires a != b
    ensures var f := Classify([a, a, a, a, b, b, b, b]);
      && f.vertex == SurfaceVertex && f.numJunctions == 0
      && f.faces.bottom == NoFaceCrossing && f.faces.top == NoFaceCrossing
      && f.faces.left == SurfaceFaceCrossing && f.faces.right == SurfaceFaceCrossing
      && f.faces.back == SurfaceFaceCrossing && f.faces.front == SurfaceFaceCrossing
      && f.edges == EdgeCrossings(false, false, false, false, false, false, false, false, true, true, true, true)
  {
    assert {a, a, a, a} == {a};
    assert {b, b, b, b} == {b};
    assert {a, a, b, b} == {a, b};
    assert {a, b, b, a} == {a, b};
  }

  /** A cell whose 8 corners all carry different labels: every edge crosses,
      every face is a junction, and the cell holds a corner vertex with 6
      junctions. */
  lemma AllDistinctIsCorner(labels: seq<Int32>)
    requires |labels| == 8 && forall i, j :: 0 <= i < j < 8 ==> labels[i] != labels[j]
    ensures var f := Classify(labels);
      && f.vertex == CornerVertex && f.numJunctions == 6
      && (forall face: Face :: LeftFace <= face <= TopFace ==> f.faces.Get(face) == JunctionFaceCrossing)
      && (forall edge: Edge :: LeftBottomEdge <= edge <= RightFrontEdge ==> f.edges.Get(edge))
  {
    var l := labels;
    assert |{l[0], l[3], l[7], l[4]}| == 4;
    assert |{l[1], l[2], l[6], l[5]}| == 4;
    assert |{l[0], l[1], l[5], l[4]}| == 4;
    assert |{l[3], l[2], l[6], l[7]}| == 4;
    assert |{l[0], l[1], l[2], l[3]}| == 4;
    assert |{l[4], l[5], l[6], l[7]}| == 4;
  }

  /** When no face below ordinal n is counted as crossed, each of them is uncrossed. */
  lemma {:induction false} ZeroCountUncrossed(faces: FaceCrossings, n: nat)
    requires n <= 6 && CountCrossings(faces, n) == 0
    ensures forall face: Face :: 0 <= face < n as Face ==> faces.Get(face) == NoFaceCrossing
  {
    if n > 0 {
      ZeroCountUncrossed(faces, n - 1);
    }
  }

  /** With no face crossed, every face is uncrossed. */
  lemma NoCrossingsMeansNone(faces: FaceCrossings)
    requires CountCrossings(faces, 6) == 0
    ensures faces == EmptyCell.faces
  {
    ZeroCountUncrossed(faces, 6);
    assert faces.Get(LeftFace) == faces.Get(RightFace) == faces.Get(BackFace) == NoFaceCrossing;
    assert faces.Get(FrontFace) == faces.Get(BottomFace) == faces.Get(TopFace) == NoFaceCrossing;
  }

  // ---------------------------------------------------------------------------
  // FaceCrossingTypeAsBits: the distinct-label count of a face
  // ---------------------------------------------------------------------------

  /** No label occurs twice in s. */
  predicate Distinct(s: seq<Int32>)
  {
    forall i, j :: 0 <= i < j < |s| ==> s[i] != s[j]
  }

  /** The labels that occur in s. */
  function Elements(s: seq<Int32>): set<Int32>
  {
    set x | x in s
  }

  /** A sequence of distinct labels holds as many different labels as it is long. */
  lemma {:induction false} DistinctCard(s: seq<Int32>)
    requires Distinct(s)
    ensures |Elements(s)| == |s|
  {
    if |s| > 0 {
      var init := s[..|s| - 1];
      DistinctCard(init);
      assert Elements(s) == Elements(init) + {s[|s| - 1]};
      assert s[|s| - 1] !in Elements(init);
    }
  }

  /** s with x appended unless x already occurs in it. */
  function AddIfNew(s: seq<Int32>, x: Int32): seq<Int32>
  {
    if x in s then s else s + [x]
  }

  /** Appending a label unless it is already present keeps the labels distinct
      and adds it to their set. */
  lemma AddIfNewElements(s: seq<Int32>, x: Int32)
    requires Distinct(s)
    ensures Distinct(AddIfNew(s, x)) && Elements(AddIfNew(s, x)) == Elements(s) + {x}
  {
    if x !in s {
      assert Elements(s + [x]) == Elements(s) + {x};
    }
  }

  /** The labels of a face, each kept at its first occurrence. */
  function FirstSeen(c0: Int32, c1: Int32, c2: Int32, c3: Int32): seq<Int32>
  {
    AddIfNew(AddIfNew(AddIfNew([c0], c1), c2), c3)
  }

  /** The labels kept at their first occurrence are the face's distinct labels,
      so there are as many of them as the face has distinct labels. */
  lemma FirstSeenCountsDistinct(c0: Int32, c1: Int32, c2: Int32, c3: Int32)
    ensures |FirstSeen(c0, c1, c2, c3)| == |{c0, c1, c2, c3}|
  {
    var s1 := AddIfNew([c0], c1);
    var s2 := AddIfNew(s1, c2);
    assert Elements([c0]) == {c0};
    AddIfNewElements([c0], c1);
    AddIfNewElements(s1, c2);
    AddIfNewElements(s2, c3);
    assert Elements(FirstSeen(c0, c1, c2, c3)) == {c0, c1, c2, c3};
    DistinctCard(FirstSeen(c0, c1, c2, c3));
  }

  /** The search-and-append step of FaceCrossingTypeAsBits: c is stored in the
      next slot unless one of the first numUniqueTypes slots already holds it. */
  method AppendIfNew(uniqueTypes: array<Int32>, numUniqueTypes: nat, c: Int32) returns (newCount: nat)
    requires numUniqueTypes < uniqueTypes.Length
    modifies uniqueTypes
    ensures newCount <= numUniqueTypes + 1
    ensures uniqueTypes[..newCount] == AddIfNew(old(uniqueTypes[..numUniqueTypes]), c)
  {
    newCount := numUniqueTypes;
    var idx := 0;
    while idx < newCount && c != uniqueTypes[idx]
      invariant 0 <= idx <= newCount
      invariant forall j :: 0 <= j < idx ==> uniqueTypes[j] != c
    {
      idx := idx + 1;
    }
    if idx == newCount {
      uniqueTypes[newCount] := c;
      newCount := newCount + 1;
    }
  }

  /** The crossing type code of a face with corner labels c0..c3 in order round
      it: the distinct labels are gathered, first seen first, into a 4-slot
      array, and their number decides the type. */
  method FaceCrossingTypeAsBits(c0: Int32, c1: Int32, c2: Int32, c3: Int32) returns (bits: bv32)
    ensures bits == FaceCrossingCode(FaceCrossingFor(c0, c1, c2, c3))
  {
    var uniqueTypes := new Int32[4];
    var numUniqueTypes := 0;
    uniqueTypes[numUniqueTypes] := c0;
    numUniqueTypes := numUniqueTypes + 1;
    if c1 != uniqueTypes[0] {
      uniqueTypes[numUniqueTypes] := c1;
      numUniqueTypes := numUniqueTypes + 1;
    }
    assert uniqueTypes[..numUniqueTypes] == AddIfNew([c0], c1);
    numUniqueTypes := AppendIfNew(uniqueTypes, numUniqueTypes, c2);
    numUniqueTypes := AppendIfNew(uniqueTypes, numUniqueTypes, c3);
    FirstSeenCountsDistinct(c0, c1, c2, c3);

    var crossingType := NoFaceCrossing;
    if numUniqueTypes == 0 || numUniqueTypes == 1 {
      crossingType := NoFaceCrossing;
    } else if numUniqueTypes == 2 {
      if c0 == c2 && c1 == c3 {
        crossingType := JunctionFaceCrossing;
      } else {
        crossingType := SurfaceFaceCrossing;
      }
    } else if numUniqueTypes == 3 || numUniqueTypes == 4 {
      crossingType := JunctionFaceCrossing;
    } else {
      crossingType := NoFaceCrossing;
    }
    bits := FaceCrossingCode(crossingType);
  }

  // ---------------------------------------------------------------------------
  // The word built by set() before its vertex type and junction count
  // ---------------------------------------------------------------------------

  /** The six face fields of a word assembled from an edge section and six 2-bit
      face codes hold those codes. */
  lemma FacesApart(e: bv32, c0: bv32, c1: bv32, c2: bv32, c3: bv32, c4: bv32, c5: bv32)
    requires e & !EdgeFieldBits == 0
    requires c0 < 4 && c1 < 4 && c2 < 4 && c3 < 4 && c4 < 4 && c5 < 4
    ensures var w := e | (c0 << LeftFaceShift) | (c1 << RightFaceShift) | (c2 << BackFaceShift)
        | (c3 << FrontFaceShift) | (c4 << BottomFaceShift) | (c5 << TopFaceShift);
      && (w & LeftFaceCrossingBits) >> LeftFaceShift == c0
      && (w & RightFaceCrossingBits) >> RightFaceShift == c1
      && (w & BackFaceCrossingBits) >> BackFaceShift == c2
      && (w & FrontFaceCrossingBits) >> FrontFaceShift == c3
      && (w & BottomFaceCrossingBits) >> BottomFaceShift == c4
      && (w & TopFaceCrossingBits) >> TopFaceShift == c5
  {
  }

  /** The word set() holds once it has written the edge and face sections. */
  function EdgesAndFacesWord(edges: EdgeCrossings, faces: FaceCrossings): bv32
  {
    EdgeWord(edges)
    | (FaceCrossingCode(faces.left) << LeftFaceShift)
    | (FaceCrossingCode(faces.right) << RightFaceShift)
    | (FaceCrossingCode(faces.back) << BackFaceShift)
    | (FaceCrossingCode(faces.front) << FrontFaceShift)
    | (FaceCrossingCode(faces.bottom) << BottomFaceShift)
    | (FaceCrossingCode(faces.top) << TopFaceShift)
  }

  /** In the word holding the edge and face sections, faceCrossingType reads back
      every face. */
  lemma EdgesAndFacesDecode(edges: EdgeCrossings, faces: FaceCrossings)
    ensures forall face: Face :: LeftFace <= face <= TopFace ==>
      DecodeFaceCrossing(EdgesAndFacesWord(edges, faces), face) == faces.Get(face)
  {
    var w := EdgesAndFacesWord(edges, faces);
    EdgeSectionInField(edges);
    FacesApart(EdgeWord(edges), FaceCrossingCode(faces.left), FaceCrossingCode(faces.right), FaceCrossingCode(faces.back), FaceCrossingCode(faces.front), FaceCrossingCode(faces.bottom), FaceCrossingCode(faces.top));
    DecodeFacesLow(w, faces);
    DecodeFacesHigh(w, faces);
  }

  /** The full word is the edge-and-face word with the vertex code and the count
      ORed in. */
  lemma PackExtends(f: CellFields)
    requires f.numJunctions < 8
    ensures Pack(f) == EdgesAndFacesWord(f.edges, f.faces)
      | (VertexTypeCode(f.vertex) << VertexTypeShift) | (CountCode(f.numJunctions) << NumJunctionsBitShift)
  {
  }

  /** The junction counter compares with 1 and 2 as the count it encodes does. */
  lemma CountCodeOrder(n: nat)
    requires n < 8
    ensures CountCode(n) < 1 <==> n < 1
    ensures CountCode(n) <= 2 <==> n <= 2
  {
  }

  /** The word set() assembles section by section is the packed classification. */
  lemma PackFromSections(labels: seq<Int32>, edgesAndFaces: bv32, withVertex: bv32, w: bv32)
    requires |labels| == 8
    requires edgesAndFaces == EdgesAndFacesWord(EdgesOf(labels), FacesOf(labels))
    requires withVertex == edgesAndFaces | (VertexTypeCode(VertexTypeFor(FacesOf(labels))) << VertexTypeShift)
    requires CountJunctions(FacesOf(labels), 6) < 8
    requires w == withVertex | (CountCode(CountJunctions(FacesOf(labels), 6)) << NumJunctionsBitShift)
    ensures w == Pack(Classify(labels))
  {
    PackExtends(Classify(labels));
  }

  /** ORing in the code of "no vertex" leaves a word unchanged. */
  lemma OrNoVertex(w: bv32)
    ensures w | (VertexTypeCode(NoVertex) << VertexTypeShift) == w
  {
  }

  /** An empty cell packs to the word 0. */
  lemma PackEmpty()
    ensures EdgeWord(EmptyCell.edges) == 0 && Pack(EmptyCell) == 0
  {
  }

  // ---------------------------------------------------------------------------
  // The cell flag object
  // ---------------------------------------------------------------------------

  /** The flag of one cell: a single 32-bit word, 0 when constructed. */
  class CellFlag
  {
    var bits: bv32

    /** A new flag holds the word 0. */
    constructor()
      ensures bits == 0
    {
      bits := 0;
    }

    /** getBitFlag(): the raw word, with no other effect. */
    function GetBitFlag(): bv32
      reads this
    {
      bits
    }

    /** clear(): the word becomes 0, which decodes as an empty cell. */
    method Clear()
      modifies this
      ensures bits == 0 && Unpack(bits) == EmptyCell
    {
      bits := 0;
      PackEmpty();
      UnpackPack(EmptyCell);
    }

    function GetVertexType(): VertexType
      reads this
    {
      DecodeVertexType(bits)
    }

    function GetFaceCrossingType(face: Face): FaceCrossingType
      reads this
    {
      DecodeFaceCrossing(bits, face)
    }

    function IsEdgeCrossing(edge: Edge): bool
      reads this
    {
      DecodeEdgeCrossing(bits, edge)
    }

    /** numJunctions(): the word shifted right by 29, as an unsigned byte. */
    function NumJunctions(): bv8
      reads this
    {
      (bits >> NumJunctionsBitShift) as bv8
    }

    /** One edge test of set(): when the labels at the edge's two corners
        differ, the edge's bit is ORed into the word and the edge is counted. */
    method MarkEdge(labels: seq<Int32>, edge: Edge, numEdgeCrossings: nat) returns (count: nat)
      requires |labels| == 8 && LeftBottomEdge <= edge <= RightFrontEdge
      modifies this
      ensures bits == old(bits) | EdgeBit(EdgesOf(labels), edge)
      ensures count == numEdgeCrossings + EdgeCrossed(EdgesOf(labels), edge)
    {
      EdgesOfTable(labels, edge);
      var (c0, c1) := EdgeEnds(edge);
      count := numEdgeCrossings;
      if labels[c0] != labels[c1] {
        bits := bits | EdgeCrossingBit(edge);
        count := count + 1;
      }
    }

    /** The tests of the four bottom edges (corners 0..3). */
    method FindBottomEdgeCrossings(labels: seq<Int32>, numEdgeCrossings: nat) returns (count: nat)
      requires |labels| == 8
      modifies this
      ensures var edges := EdgesOf(labels);
        && bits == old(bits) | EdgeBit(edges, LeftBottomEdge) | EdgeBit(edges, RightBottomEdge) | EdgeBit(edges, BackBottomEdge) | EdgeBit(edges, FrontBottomEdge)
        && count == numEdgeCrossings + EdgeCrossed(edges, LeftBottomEdge) + EdgeCrossed(edges, RightBottomEdge) + EdgeCrossed(edges, BackBottomEdge) + EdgeCrossed(edges, FrontBottomEdge)
    {
      count := MarkEdge(labels, LeftBottomEdge, numEdgeCrossings);
      count := MarkEdge(labels, RightBottomEdge, count);
      count := MarkEdge(labels, BackBottomEdge, count);
      count := MarkEdge(labels, FrontBottomEdge, count);
    }

    /** The tests of the four top edges (corners 4..7). */
    method FindTopEdgeCrossings(labels: seq<Int32>, numEdgeCrossings: nat) returns (count: nat)
      requires |labels| == 8
      modifies this
      ensures var edges := EdgesOf(labels);
        && bits == old(bits) | EdgeBit(edges, LeftTopEdge) | EdgeBit(edges, RightTopEdge) | EdgeBit(edges, BackTopEdge) | EdgeBit(edges, FrontTopEdge)
        && count == numEdgeCrossings + EdgeCrossed(edges, LeftTopEdge) + EdgeCrossed(edges, RightTopEdge) + EdgeCrossed(edges, BackTopEdge) + EdgeCrossed(edges, FrontTopEdge)
    {
      count := MarkEdge(labels, LeftTopEdge, numEdgeCrossings);
      count := MarkEdge(labels, RightTopEdge, count);
      count := MarkEdge(labels, BackTopEdge, count);
      count := MarkEdge(labels, FrontTopEdge, count);
    }

    /** The tests of the four vertical edges (bottom corner to top corner). */
    method FindVerticalEdgeCrossings(labels: seq<Int32>, numEdgeCrossings: nat) returns (count: nat)
      requires |labels| == 8
      modifies this
      ensures var edges := EdgesOf(labels);
        && bits == old(bits) | EdgeBit(edges, LeftBackEdge) | EdgeBit(edges, RightBackEdge) | EdgeBit(edges, LeftFrontEdge) | EdgeBit(edges, RightFrontEdge)
        && count == numEdgeCrossings + EdgeCrossed(edges, LeftBackEdge) + EdgeCrossed(edges, RightBackEdge) + EdgeCrossed(edges, LeftFrontEdge) + EdgeCrossed(edges, RightFrontEdge)
    {
      count := MarkEdge(labels, LeftBackEdge, numEdgeCrossings);
      count := MarkEdge(labels, RightBackEdge, count);
      count := MarkEdge(labels, LeftFrontEdge, count);
      count := MarkEdge(labels, RightFrontEdge, count);
    }

    /** The edge section of set(): starting from the word 0, each of the 12
        edges whose corner labels differ has its bit set and is counted. */
    method FindEdgeCrossings(labels: seq<Int32>) returns (numEdgeCrossings: nat)
      requires |labels| == 8 && bits == 0
      modifies this
      ensures bits == EdgeWord(EdgesOf(labels))
      ensures numEdgeCrossings == EdgeCount(EdgesOf(labels))
    {
      numEdgeCrossings := FindBottomEdgeCrossings(labels, 0);
      numEdgeCrossings := FindTopEdgeCrossings(labels, numEdgeCrossings);
      numEdgeCrossings := FindVerticalEdgeCrossings(labels, numEdgeCrossings);
      assert 0 | EdgeBit(EdgesOf(labels), LeftBottomEdge) == EdgeBit(EdgesOf(labels), LeftBottomEdge);
    }

    /** The face section of set(): the crossing type code of each face is ORed
        into its 2-bit field. */
    method FindFaceCrossings(labels: seq<Int32>)
      requires |labels| == 8 && bits == EdgeWord(EdgesOf(labels))
      modifies this
      ensures bits == EdgesAndFacesWord(EdgesOf(labels), FacesOf(labels))
    {
      var faceTypeBits := FaceCrossingTypeAsBits(labels[0], labels[3], labels[7], labels[4]);
      bits := bits | (faceTypeBits << LeftFaceShift);
      faceTypeBits := FaceCrossingTypeAsBits(labels[1], labels[2], labels[6], labels[5]);
      bits := bits | (faceTypeBits << RightFaceShift);
      faceTypeBits := FaceCrossingTypeAsBits(labels[0], labels[1], labels[5], labels[4]);
      bits := bits | (faceTypeBits << BackFaceShift);
      faceTypeBits := FaceCrossingTypeAsBits(labels[3], labels[2], labels[6], labels[7]);
      bits := bits | (faceTypeBits << FrontFaceShift);
      faceTypeBits := FaceCrossingTypeAsBits(labels[0], labels[1], labels[2], labels[3]);
      bits := bits | (faceTypeBits << BottomFaceShift);
      faceTypeBits := FaceCrossingTypeAsBits(labels[4], labels[5], labels[6], labels[7]);
      bits := bits | (faceTypeBits << TopFaceShift);
    }

    /** The counting loop of set(): the faces are visited from LeftFace to TopFace,
        reading each one's crossing type back from the word, to count the crossed
        faces and the junction faces (the latter as an unsigned 32-bit counter). */
    method CountFaceCrossings(ghost faces: FaceCrossings) returns (numFaceCrossings: nat, numJunctions: bv32)
      requires forall face: Face :: LeftFace <= face <= TopFace ==> GetFaceCrossingType(face) == faces.Get(face)
      ensures numFaceCrossings == CountCrossings(faces, 6)
      ensures CountJunctions(faces, 6) <= 6 && numJunctions == CountCode(CountJunctions(faces, 6))
    {
      numFaceCrossings := 0;
      numJunctions := 0;
      var face := LeftFace;
      while face <= TopFace
        invariant LeftFace <= face <= TopFace + 1
        invariant numFaceCrossings == CountCrossings(faces, face as nat)
        invariant CountJunctions(faces, face as nat) <= face as nat
        invariant numJunctions == CountCode(CountJunctions(faces, face as nat))
      {
        CountStep(faces, face as nat);
        if GetFaceCrossingType(face) != NoFaceCrossing {
          numFaceCrossings := numFaceCrossings + 1;
          if GetFaceCrossingType(face) == JunctionFaceCrossing {
            numJunctions := numJunctions + 1;
          }
        }
        face := Succ(face);
      }
    }

    /** The vertex section of set(): a cell with a crossed face gets the
        surface, edge or corner vertex type by its number of junction faces
        (none, one or two, more); otherwise the vertex field stays 0. */
    method AddVertexType(numFaceCrossings: nat, numJunctions: bv32, ghost faces: FaceCrossings)
      requires numFaceCrossings == CountCrossings(faces, 6)
      requires CountJunctions(faces, 6) <= 6 && numJunctions == CountCode(CountJunctions(faces, 6))
      modifies this
      ensures bits == old(bits) | (VertexTypeCode(VertexTypeFor(faces)) << VertexTypeShift)
    {
      CountCodeOrder(CountJunctions(faces, 6));
      if numFaceCrossings != 0 {
        var vertexTypeBits: bv32 := 0;
        if numJunctions < 1 {
          vertexTypeBits := VertexTypeCode(SurfaceVertex);
        } else if numJunctions <= 2 {
          vertexTypeBits := VertexTypeCode(EdgeVertex);
        } else {
          vertexTypeBits := VertexTypeCode(CornerVertex);
        }
        bits := bits | (vertexTypeBits << VertexTypeShift);
      } else {
        OrNoVertex(bits);
      }
    }

    /** The last step of set(): the junction counter is ORed into the top 3 bits. */
    method AddJunctionCount(numJunctions: bv32, ghost labels: seq<Int32>)
      requires |labels| == 8
      requires bits == EdgesAndFacesWord(EdgesOf(labels), FacesOf(labels))
        | (VertexTypeCode(VertexTypeFor(FacesOf(labels))) << VertexTypeShift)
      requires CountJunctions(FacesOf(labels), 6) <= 6
      requires numJunctions == CountCode(CountJunctions(FacesOf(labels), 6))
      modifies this
      ensures bits == Pack(Classify(labels))
    {
      bits := bits | (numJunctions << NumJunctionsBitShift);
      PackExtends(Classify(labels));
    }

    /** set(cellLabels): the word becomes the packed classification of the cell
        whose 8 corner labels are given. */
    method Set(labels: seq<Int32>)
      requires |labels| == 8
      modifies this
      ensures bits == Pack(Classify(labels))
    {
      ghost var faces := FacesOf(labels);
      bits := 0;

      var numEdgeCrossings := FindEdgeCrossings(labels);
      if numEdgeCrossings == 0 {
        NoEdgeCounted(EdgesOf(labels));
        NoEdgeCrossingIffUniform(labels);
        UniformCellIsEmpty(labels);
        PackEmpty();
        return;
      }

      FindFaceCrossings(labels);
      EdgesAndFacesDecode(EdgesOf(labels), faces);

      var numFaceCrossings, numJunctions := CountFaceCrossings(faces);
      AddVertexType(numFaceCrossings, numJunctions, faces);
      AddJunctionCount(numJunctions, labels);
    }
  }
}
