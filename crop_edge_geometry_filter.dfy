/**
 * The preflight of the edge-geometry crop filter (preflightImpl): the ordered
 * validation of the crop parameters, the paths of the in-place mode, the
 * actions that create the destination geometry and its attribute arrays, the
 * vertex-data warning and the "Crop Dimensions" summary string.
 *
 * A data path is the sequence of its component names. The source geometry is
 * described by what the preflight reads from it: the names of its attribute
 * matrices and shared lists, and the arrays of each attribute matrix.
 */
module CropEdgeGeometryFilter {
  import opened Wrappers
  import opened EdgeClip
  import opened CropEdgeGeometry

  type DataPath = seq<string>

  /** ErrorCodes of the parameter checks. */
  const XMinLargerThanXMax: int := -1210
  const YMinLargerThanYMax: int := -1211
  const ZMinLargerThanZMax: int := -1212
  const NoDimensionsChosen: int := -1213

  /** The code of the warning about vertex data that is not interpolated. */
  const VertexDataWarning: int := -100

  const CropDimensionsName: string := "Crop Dimensions"
  const CropDimensionsPrefix: string := "This filter will crop the edge geometry in the following dimension(s):  "

  /** An array of an attribute matrix: its name, its data type (as the ordinal
      of the host's DataType) and its component shape. */
  datatype ArrayInfo = ArrayInfo(name: string, dataType: nat, componentShape: seq<nat>)

  /** What the preflight reads from the source edge geometry. */
  datatype SourceGeometry = SourceGeometry(
    vertexAttrMatrixName: string, edgeAttrMatrixName: string, verticesName: string, edgesName: string,
    vertexArrays: seq<ArrayInfo>, edgeArrays: seq<ArrayInfo>)

  datatype Action =
    | RenameData(path: DataPath, newName: string)
    | DeleteData(path: DataPath)
    | CreateEdgeGeometry(path: DataPath, numEdges: nat, numVertices: nat, vertexAttrMatrixName: string,
                         edgeAttrMatrixName: string, verticesName: string, edgesName: string)
    | CreateArray(dataType: nat, tupleShape: seq<nat>, componentShape: seq<nat>, path: DataPath)

  /** The actions run before execute, and the deferred ones run after it. */
  datatype OutputActions = OutputActions(actions: seq<Action>, deferredActions: seq<Action>)

  datatype PreflightValue = PreflightValue(name: string, value: string)

  /** The preflight result: the actions or an error code, the warning codes and
      the preflight values shown to the user. */
  datatype PreflightResult = PreflightResult(result: Result<OutputActions, int>, warnings: seq<int>, values: seq<PreflightValue>)

  /** The path with its last component replaced. */
  function Renamed(path: DataPath, name: string): (r: DataPath)
    requires |path| > 0
    ensures |r| == |path| && r[..|r| - 1] == path[..|path| - 1] && r[|r| - 1] == name
  {
    path[|path| - 1 := name]
  }

  /** The name the original geometry is moved to in the in-place mode. */
  function MovedName(path: DataPath): string
    requires |path| > 0
  {
    "." + path[|path| - 1]
  }

  // ---------------------------------------------------------------------------
  // Validation

  /** The first failing parameter check, in the order the preflight makes them:
      no axis selected, then max < min on a selected axis, X before Y before Z. */
  function ValidationError(values: CropEdgeGeometryInputValues): Option<int>
    requires |values.minCoords| == 3 && |values.maxCoords| == 3
  {
    var box := BoxOf(values);
    if !values.cropXDim && !values.cropYDim && !values.cropZDim then Some(NoDimensionsChosen)
    else if values.cropXDim && box.xMax < box.xMin then Some(XMinLargerThanXMax)
    else if values.cropYDim && box.yMax < box.yMin then Some(YMinLargerThanYMax)
    else if values.cropZDim && box.zMax < box.zMin then Some(ZMinLargerThanZMax)
    else None
  }

  /** Each error code exactly when its check is the first to fail; min == max
      passes, and the bounds of an unselected axis are never looked at. */
  lemma ValidationErrorCases(values: CropEdgeGeometryInputValues)
    requires |values.minCoords| == 3 && |values.maxCoords| == 3
    ensures var selected := values.cropXDim || values.cropYDim || values.cropZDim;
      var badX := values.cropXDim && values.maxCoords[0] < values.minCoords[0];
      var badY := values.cropYDim && values.maxCoords[1] < values.minCoords[1];
      var badZ := values.cropZDim && values.maxCoords[2] < values.minCoords[2];
      && (ValidationError(values) == Some(NoDimensionsChosen) <==> !selected)
      && (ValidationError(values) == Some(XMinLargerThanXMax) <==> selected && badX)
      && (ValidationError(values) == Some(YMinLargerThanYMax) <==> selected && !badX && badY)
      && (ValidationError(values) == Some(ZMinLargerThanZMax) <==> selected && !badX && !badY && badZ)
      && (ValidationError(values).None? <==> selected && !badX && !badY && !badZ)
  {
  }

  /** Parameters that pass the checks give a crop box that is non-empty on every
      axis, with at least one axis bounded by the parameters. */
  lemma ValidatedBoxNonEmpty(values: CropEdgeGeometryInputValues)
    requires |values.minCoords| == 3 && |values.maxCoords| == 3 && ValidationError(values).None?
    ensures var box := BoxOf(values);
      box.xMin <= box.xMax && box.yMin <= box.yMax && box.zMin <= box.zMax
    ensures values.cropXDim || values.cropYDim || values.cropZDim
  {
  }

  // ---------------------------------------------------------------------------
  // In-place mode

  /** The deferred actions of the in-place mode: move the original aside, delete
      it, and give the cropped geometry the original's name. */
  function InPlaceActions(values: CropEdgeGeometryInputValues): seq<Action>
    requires |values.srcEdgeGeomPath| > 0
  {
    var src := values.srcEdgeGeomPath;
    if values.removeOriginalGeometry then
      [RenameData(src, MovedName(src)), DeleteData(Renamed(src, MovedName(src))),
       RenameData(DestGeometryPath(values), src[|src| - 1])]
    else []
  }

  /** In the in-place mode the cropped geometry is created beside the original,
      the path deleted is the one the original is moved to, and the final rename
      puts the cropped geometry at the original's path. */
  lemma InPlaceReplacesOriginal(values: CropEdgeGeometryInputValues)
    requires |values.srcEdgeGeomPath| > 0 && values.removeOriginalGeometry
    ensures var src := values.srcEdgeGeomPath;
      var dest := DestGeometryPath(values);
      && |dest| == |src| && dest[..|dest| - 1] == src[..|src| - 1]
      && dest[|dest| - 1] == TempGeometryName
      && Renamed(dest, src[|src| - 1]) == src
      && Renamed(src, MovedName(src)) != src
  {
    var src := values.srcEdgeGeomPath;
    assert |MovedName(src)| == |src[|src| - 1]| + 1;
  }

  /** The original is moved to a path different from the cropped geometry's
      temporary path unless it is itself named cropped_edge_geometry, in which
      case the two coincide. */
  lemma TemporaryPathsDistinct(values: CropEdgeGeometryInputValues)
    requires |values.srcEdgeGeomPath| > 0 && values.removeOriginalGeometry
    ensures var src := values.srcEdgeGeomPath;
      Renamed(src, MovedName(src)) == DestGeometryPath(values) <==> src[|src| - 1] == "cropped_edge_geometry"
  {
    var src := values.srcEdgeGeomPath;
    var last := src[|src| - 1];
    var moved := Renamed(src, MovedName(src));
    var dest := DestGeometryPath(values);
    assert dest == Renamed(src, TempGeometryName);
    if moved == dest {
      assert moved[|src| - 1] == dest[|src| - 1];
      assert last == MovedName(src)[1..] == TempGeometryName[1..];
    }
    if last == "cropped_edge_geometry" {
      assert MovedName(src) == TempGeometryName;
    }
  }

  // ---------------------------------------------------------------------------
  // The summary string

  /** "X", "Y" and "Z" for the selected axes, in that order. */
  function AxisLetters(cropX: bool, cropY: bool, cropZ: bool): string
  {
    (if cropX then "X" else "") + (if cropY then "Y" else "") + (if cropZ then "Z" else "")
  }

  /** The letters name exactly the selected axes, once each, in X, Y, Z order. */
  lemma AxisLettersSelected(cropX: bool, cropY: bool, cropZ: bool)
    ensures var letters := AxisLetters(cropX, cropY, cropZ);
      && ('X' in letters <==> cropX) && ('Y' in letters <==> cropY) && ('Z' in letters <==> cropZ)
      && |letters| == (if cropX then 1 else 0) + (if cropY then 1 else 0) + (if cropZ then 1 else 0)
      && forall i, j :: 0 <= i < j < |letters| ==> letters[i] < letters[j]
  {
  }

  // ---------------------------------------------------------------------------
  // The preflight

  /** The action creating a destination array shaped like a source array, with
      one tuple, under the given attribute matrix path. */
  function CreateArrayLike(info: ArrayInfo, matrixPath: DataPath): Action
  {
    CreateArray(info.dataType, [1], info.componentShape, matrixPath + [info.name])
  }

  /** The path edits of the in-place mode: the original is to be moved to a
      dot-prefixed name and deleted, and the cropped geometry is created beside it
      under TempGeometryName. Otherwise the chosen destination is used as given. */
  method InPlacePaths(values: CropEdgeGeometryInputValues) returns (destEdgeGeomPath: DataPath, deferredActions: seq<Action>)
    requires |values.srcEdgeGeomPath| > 0
    ensures destEdgeGeomPath == DestGeometryPath(values)
    ensures deferredActions == InPlaceActions(values)[..if values.removeOriginalGeometry then 2 else 0]
  {
    var srcEdgeGeomPath := values.srcEdgeGeomPath;
    destEdgeGeomPath := values.destEdgeGeomPath;
    deferredActions := [];
    if values.removeOriginalGeometry {
      var tempPathVector := srcEdgeGeomPath;
      var tempName := "." + tempPathVector[|tempPathVector| - 1];
      tempPathVector := tempPathVector[|tempPathVector| - 1 := tempName];
      deferredActions := deferredActions + [RenameData(srcEdgeGeomPath, tempName), DeleteData(tempPathVector)];
      tempPathVector := srcEdgeGeomPath;
      tempName := TempGeometryName;
      tempPathVector := tempPathVector[|tempPathVector| - 1 := tempName];
      destEdgeGeomPath := tempPathVector;
    }
  }

  /** The "Crop Dimensions" preflight value: the fixed sentence followed by the
      letter of each selected axis. */
  function CropDimensionsValue(cropX: bool, cropY: bool, cropZ: bool): PreflightValue
  {
    PreflightValue(CropDimensionsName, CropDimensionsPrefix + AxisLetters(cropX, cropY, cropZ))
  }

  /** Builds the "Crop Dimensions" value by appending the letters in turn. */
  method DescribeCropDimensions(cropX: bool, cropY: bool, cropZ: bool) returns (value: PreflightValue)
    ensures value == CropDimensionsValue(cropX, cropY, cropZ)
  {
    var cropOptionsStr := CropDimensionsPrefix;
    cropOptionsStr := cropOptionsStr + (if cropX then "X" else "");
    cropOptionsStr := cropOptionsStr + (if cropY then "Y" else "");
    cropOptionsStr := cropOptionsStr + (if cropZ then "Z" else "");
    value := PreflightValue(CropDimensionsName, cropOptionsStr);
  }

  /** One loop over an attribute matrix: appends, for each of its arrays in
      turn, the action creating the matching array under matrixPath. */
  method AppendCreateArrays(actions: seq<Action>, arrays: seq<ArrayInfo>, matrixPath: DataPath) returns (r: seq<Action>)
    ensures |r| == |actions| + |arrays| && r[..|actions|] == actions
    ensures forall k :: 0 <= k < |arrays| ==> r[|actions| + k] == CreateArrayLike(arrays[k], matrixPath)
  {
    r := actions;
    for i := 0 to |arrays|
      invariant |r| == |actions| + i && r[..|actions|] == actions
      invariant forall k :: 0 <= k < i ==> r[|actions| + k] == CreateArrayLike(arrays[k], matrixPath)
    {
      r := r + [CreateArrayLike(arrays[i], matrixPath)];
    }
  }

  /** What a preflight that passes the checks produces: the destination
      geometry (beside the source, under the temporary name, in the in-place
      mode) with one destination array per source edge array and then one per
      source vertex array, each shaped like its source with one tuple; the
      deferred in-place actions; the warning exactly when the vertex attribute
      matrix holds arrays; and the selected axes. */
  predicate CreatesDestination(values: CropEdgeGeometryInputValues, src: SourceGeometry,
                               output: OutputActions, warnings: seq<int>, preflightValues: seq<PreflightValue>)
    requires |values.srcEdgeGeomPath| > 0
  {
    var dest := DestGeometryPath(values);
    var actions := output.actions;
    var numEdgeArrays := |src.edgeArrays|;
    && |actions| == 1 + numEdgeArrays + |src.vertexArrays|
    && actions[0] == CreateEdgeGeometry(dest, 1, 1, src.vertexAttrMatrixName, src.edgeAttrMatrixName, src.verticesName, src.edgesName)
    && (forall i :: 0 <= i < numEdgeArrays ==> actions[1 + i] == CreateArrayLike(src.edgeArrays[i], dest + [src.edgeAttrMatrixName]))
    && (forall i :: 0 <= i < |src.vertexArrays| ==>
          actions[1 + numEdgeArrays + i] == CreateArrayLike(src.vertexArrays[i], dest + [src.vertexAttrMatrixName]))
    && output.deferredActions == InPlaceActions(values)
    && warnings == (if |src.vertexArrays| > 0 then [VertexDataWarning] else [])
    && preflightValues == [CropDimensionsValue(values.cropXDim, values.cropYDim, values.cropZDim)]
  }

  /** The part of preflightImpl after the parameter checks. */
  method CreateDestination(values: CropEdgeGeometryInputValues, src: SourceGeometry)
    returns (output: OutputActions, warnings: seq<int>, preflightValues: seq<PreflightValue>)
    requires |values.srcEdgeGeomPath| > 0
    ensures CreatesDestination(values, src, output, warnings, preflightValues)
  {
    var srcEdgeGeomPath := values.srcEdgeGeomPath;
    var destEdgeGeomPath, deferredActions := InPlacePaths(values);

    var actions := [CreateEdgeGeometry(destEdgeGeomPath, 1, 1, src.vertexAttrMatrixName, src.edgeAttrMatrixName,
                                       src.verticesName, src.edgesName)];
    var newEdgeAttributeMatrixPath := destEdgeGeomPath + [src.edgeAttrMatrixName];
    actions := AppendCreateArrays(actions, src.edgeArrays, newEdgeAttributeMatrixPath);

    warnings := [];
    if |src.vertexArrays| > 0 {
      warnings := warnings + [VertexDataWarning];
    }
    var newVertexAttributeMatrixPath := destEdgeGeomPath + [src.vertexAttrMatrixName];
    var withEdgeArrays := actions;
    actions := AppendCreateArrays(actions, src.vertexArrays, newVertexAttributeMatrixPath);
    assert forall i :: 0 <= i < 1 + |src.edgeArrays| ==> actions[i] == withEdgeArrays[i];

    var cropDimensions := DescribeCropDimensions(values.cropXDim, values.cropYDim, values.cropZDim);
    preflightValues := [cropDimensions];

    if values.removeOriginalGeometry {
      deferredActions := deferredActions + [RenameData(destEdgeGeomPath, srcEdgeGeomPath[|srcEdgeGeomPath| - 1])];
    }
    output := OutputActions(actions, deferredActions);
  }

  /** preflightImpl: stops at the first failing parameter check with its code
      and nothing else; otherwise creates the destination as CreatesDestination
      says. */
  method Preflight(values: CropEdgeGeometryInputValues, src: SourceGeometry) returns (p: PreflightResult)
    requires |values.srcEdgeGeomPath| > 0 && |values.minCoords| == 3 && |values.maxCoords| == 3
    ensures p.result.Failure? <==> ValidationError(values).Some?
    ensures p.result.Failure? ==> p.result.error == ValidationError(values).value && p.warnings == [] && p.values == []
    ensures p.result.Success? ==> CreatesDestination(values, src, p.result.value, p.warnings, p.values)
  {
    if !values.cropXDim && !values.cropYDim && !values.cropZDim {
      return PreflightResult(Failure(NoDimensionsChosen), [], []);
    }
    var box := BoxOf(values);
    if values.cropXDim && box.xMax < box.xMin {
      return PreflightResult(Failure(XMinLargerThanXMax), [], []);
    }
    if values.cropYDim && box.yMax < box.yMin {
      return PreflightResult(Failure(YMinLargerThanYMax), [], []);
    }
    if values.cropZDim && box.zMax < box.zMin {
      return PreflightResult(Failure(ZMinLargerThanZMax), [], []);
    }
    var output, warnings, preflightValues := CreateDestination(values, src);
    return PreflightResult(Success(output), warnings, preflightValues);
  }

  /** The "Invalid Params" test: with the other bounds valid, X 2.5 > 1.5,
      Y 3.5 > 2.5 or Z 1.0 > 0.5 on the one selected axis, or no axis at all,
      each fail with their own single code. */
  lemma InvalidParamsExample(removeOriginal: bool, src: DataPath, dest: DataPath)
    ensures var values := (cropX: bool, cropY: bool, cropZ: bool, minCoords: seq<real>) =>
      CropEdgeGeometryInputValues(src, dest, minCoords, [1.5, 2.5, 0.5], removeOriginal, cropX, cropY, cropZ, InterpolateOutsideVertex);
      && ValidationError(values(true, false, false, [2.5, -0.5, -0.5])) == Some(XMinLargerThanXMax)
      && ValidationError(values(false, true, false, [-0.5, 3.5, -0.5])) == Some(YMinLargerThanYMax)
      && ValidationError(values(false, false, true, [-0.5, -0.5, 1.0])) == Some(ZMinLargerThanZMax)
      && ValidationError(values(false, false, false, [-0.5, -0.5, -0.5])) == Some(NoDimensionsChosen)
      && ValidationError(values(true, true, false, [-0.5, -0.5, -0.5])).None?
  {
  }
}
