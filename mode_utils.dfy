/**
 * Stand-ins for the helpers the drawing mode calls but whose files are not
 * part of this model (`getFeatureCoordinates`, `BaseMode.getSelectedFeature`,
 * `BaseMode.getEditHandlesFromFeature`). Each is given the plain behaviour
 * its name and its use describe; the properties of the drawing mode are
 * stated against these definitions.
 */
module ModeUtils {
  import opened Optional
  import opened GeoJson
  import opened ModeTypes

  /** The coordinate sequence of a feature, missing when the feature is. */
  function GetFeatureCoordinates(feature: Option<Feature>): (r: Option<seq<Position>>)
    ensures r.Some? <==> feature.Some?
    ensures r.Some? ==> r.value == feature.value.geometry.coordinates
  {
    match feature
    case None => None
    case Some(f) => Some(f.geometry.coordinates)
  }

  /** The feature the first selected index names in `props.data`, if any. */
  function GetSelectedFeature(props: ModeProps): (r: Option<Feature>)
    ensures r.Some? ==> |props.selectedIndexes| > 0 && props.selectedIndexes[0].Some?
    ensures r.Some? ==> r == FeatureAt(props.data, props.selectedIndexes[0].value)
  {
    if |props.selectedIndexes| > 0 && props.selectedIndexes[0].Some? then
      FeatureAt(props.data, props.selectedIndexes[0].value)
    else
      None
  }

  /** The edit handle of the `i`-th vertex of a feature. */
  function VertexHandle(f: Feature, featureIndex: Option<int>, i: int, p: Position): Feature
  {
    Feature(Properties(None, f.properties.renderType, Some(EditHandle), featureIndex, Some([i])),
            Geometry(Point, [p]))
  }

  /** One edit handle per vertex, in vertex order; missing when the feature is. */
  function GetEditHandlesFromFeature(feature: Option<Feature>, featureIndex: Option<int>): (r: Option<seq<Feature>>)
    ensures r.Some? <==> feature.Some?
    ensures r.Some? ==> |r.value| == |feature.value.geometry.coordinates|
    ensures r.Some? ==> forall i :: 0 <= i < |r.value| ==>
      r.value[i].properties.positionIndexes == Some([i]) &&
      r.value[i].geometry == Geometry(Point, [feature.value.geometry.coordinates[i]])
  {
    match feature
    case None => None
    case Some(f) =>
      var coords := f.geometry.coordinates;
      Some(seq(|coords|, i requires 0 <= i < |coords| => VertexHandle(f, featureIndex, i, coords[i])))
  }
}
