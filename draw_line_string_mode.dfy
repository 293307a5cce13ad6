/**
 * The line-string drawing mode. Each mode instance owns one optional
 * tentative feature: the first click starts it as a one-vertex `Point`,
 * every later click appends a vertex (turning it into a `LineString`) and
 * reports `ADD_POSITION`, and a double-click commits it to the collection
 * with `ADD_FEATURE`. `getGuides` builds the edit handles and the
 * rubber-band line shown while drawing.
 */
module DrawLineString {
  import opened Optional
  import opened GeoJson
  import opened ModeTypes
  import opened ModeUtils

  /** The feature `_initTentativeFeature` stores for the first click. */
  function InitialTentative(event: BaseEvent, freshId: Id): Feature
  {
    Feature(Properties(Some(freshId), Some(RenderLineString), Some(Tentative), None, None),
            Geometry(Point, [event.mapCoords]))
  }

  /** The feature `_updateTentativeFeature` stores: one more vertex, as a `LineString`. */
  function WithPosition(t: Feature, event: BaseEvent): Feature
  {
    t.(geometry := Geometry(LineString, t.geometry.coordinates + [event.mapCoords]))
  }

  /** The `ADD_POSITION` action reported after a vertex was appended to `updated`. */
  function AddPositionAction(updated: Feature, event: BaseEvent, data: seq<Feature>): EditAction
  {
    EditAction(AddPosition, data,
      Some([EditContextEntry(updated, None, |updated.geometry.coordinates| - 1,
                             event.screenCoords, event.mapCoords)]))
  }

  /** The committed feature: property bag cut down to the id and the render type. */
  function CommittedFeature(t: Feature): Feature
  {
    t.(properties := Properties(t.properties.id, Some(RenderLineString), None, None, None))
  }

  /** The `ADD_FEATURE` action reported by a commit. */
  function AddFeatureAction(t: Feature, data: seq<Feature>): EditAction
  {
    EditAction(AddFeature, data + [CommittedFeature(t)], None)
  }

  /** The tentative slot after `handleClick`. */
  function SlotAfterClick(slot: Option<Feature>, event: BaseEvent, freshId: Id): Option<Feature>
  {
    match slot
    case None => Some(InitialTentative(event, freshId))
    case Some(t) => Some(WithPosition(t, event))
  }

  /** The action `handleClick` hands to `onEdit`, if any. */
  function ClickAction(slot: Option<Feature>, event: BaseEvent, data: seq<Feature>): Option<EditAction>
  {
    match slot
    case None => None
    case Some(t) => Some(AddPositionAction(WithPosition(t, event), event, data))
  }

  /** The tentative slot after one click per event, `ids[k]` being the id `uuid()` would give at click `k`. */
  function SlotAfterClicks(slot: Option<Feature>, events: seq<BaseEvent>, ids: seq<Id>): Option<Feature>
    requires |ids| == |events|
    decreases |events|
  {
    if |events| == 0 then slot
    else
      var n := |events| - 1;
      SlotAfterClick(SlotAfterClicks(slot, events[..n], ids[..n]), events[n], ids[n])
  }

  /** The map coordinates of the events, in order. */
  function MapCoordsOf(events: seq<BaseEvent>): (r: seq<Position>)
    ensures |r| == |events|
    ensures forall k :: 0 <= k < |events| ==> r[k] == events[k].mapCoords
  {
    seq(|events|, k requires 0 <= k < |events| => events[k].mapCoords)
  }

  /** The first click with an empty slot starts a tentative `Point` and reports nothing. */
  lemma FirstClickStartsFeature(event: BaseEvent, freshId: Id, data: seq<Feature>)
    ensures SlotAfterClick(None, event, freshId).Some?
    ensures SlotAfterClick(None, event, freshId).value.geometry == Geometry(Point, [event.mapCoords])
    ensures SlotAfterClick(None, event, freshId).value.properties
         == Properties(Some(freshId), Some(RenderLineString), Some(Tentative), None, None)
    ensures ClickAction(None, event, data) == None
  {
  }

  /**
   * After N clicks from an empty slot the tentative feature holds exactly the
   * N click positions in order; it is a `Point` only while N is 1, and it
   * keeps the id and tags given by the first click.
   */
  lemma {:induction false} ClicksAccumulate(events: seq<BaseEvent>, ids: seq<Id>)
    requires |ids| == |events| > 0
    ensures SlotAfterClicks(None, events, ids).Some?
    ensures SlotAfterClicks(None, events, ids).value.geometry.coordinates == MapCoordsOf(events)
    ensures SlotAfterClicks(None, events, ids).value.geometry.kind
         == (if |events| == 1 then Point else LineString)
    ensures SlotAfterClicks(None, events, ids).value.properties
         == InitialTentative(events[0], ids[0]).properties
    decreases |events|
  {
    var n := |events| - 1;
    assert events[..n] == [] ==> SlotAfterClicks(None, events[..n], ids[..n]) == None;
    if n > 0 {
      ClicksAccumulate(events[..n], ids[..n]);
      assert events[..n][0] == events[0];
      assert MapCoordsOf(events) == MapCoordsOf(events[..n]) + [events[n].mapCoords];
    }
  }

  /**
   * A click after N >= 1 clicks appends its position and reports exactly one
   * `ADD_POSITION` on the unchanged collection, with no feature index and
   * edit-handle index N (so 1 on the second click).
   */
  lemma LaterClickAddsPosition(events: seq<BaseEvent>, ids: seq<Id>, event: BaseEvent, freshId: Id,
                               data: seq<Feature>)
    requires |ids| == |events| > 0
    ensures var before := SlotAfterClicks(None, events, ids);
      var after := SlotAfterClick(before, event, freshId);
      var action := ClickAction(before, event, data);
      && after.Some?
      && after.value.geometry == Geometry(LineString, MapCoordsOf(events) + [event.mapCoords])
      && action.Some?
      && action.value.editType == AddPosition
      && action.value.updatedData == data
      && action.value.editContext
         == Some([EditContextEntry(after.value, None, |events|, event.screenCoords, event.mapCoords)])
  {
    ClicksAccumulate(events, ids);
  }

  /**
   * N clicks followed by a commit add one feature after the old ones: its
   * coordinates are the N click positions in order, it stays a `Point` only
   * for N = 1, and its properties are just the first click's id and the
   * line-string render type.
   */
  lemma DrawnFeatureIsCommitted(events: seq<BaseEvent>, ids: seq<Id>, data: seq<Feature>)
    requires |ids| == |events| > 0
    ensures var action := AddFeatureAction(SlotAfterClicks(None, events, ids).value, data);
      && action.editType == AddFeature
      && action.editContext == None
      && |action.updatedData| == |data| + 1
      && action.updatedData[..|data|] == data
      && action.updatedData[|data|].geometry.coordinates == MapCoordsOf(events)
      && (action.updatedData[|data|].geometry.kind == Point <==> |events| == 1)
      && action.updatedData[|data|].properties
         == Properties(Some(ids[0]), Some(RenderLineString), None, None, None)
  {
    ClicksAccumulate(events, ids);
    var action := AddFeatureAction(SlotAfterClicks(None, events, ids).value, data);
    assert action.updatedData[..|data|] == data;
  }

  /** The shapes `getGuides` returns: the rubber-band feature and the edit handles. */
  datatype Guides = Guides(tentativeFeature: Feature, editHandles: seq<Feature>)

  class DrawLineStringMode {
    /** The single tentative-feature slot of this instance. */
    var tentativeFeature: Option<Feature>

    /** A fresh instance starts with an empty slot. */
    constructor ()
      ensures tentativeFeature == None
    {
      tentativeFeature := None;
    }

    /** `handleClick`: start the tentative feature, or append to it and report `ADD_POSITION`. */
    method HandleClick(event: BaseEvent, props: ModeProps, freshId: Id) returns (edit: Option<EditAction>)
      modifies this
      ensures tentativeFeature == SlotAfterClick(old(tentativeFeature), event, freshId)
      ensures edit == ClickAction(old(tentativeFeature), event, props.data)
    {
      if tentativeFeature.Some? {
        edit := UpdateTentativeFeature(event, props);
      } else {
        InitTentativeFeature(event, freshId);
        edit := None;
      }
    }

    /** `handleDblClick`: commit whatever the clicks have built. */
    method HandleDblClick(event: BaseEvent, props: ModeProps) returns (edit: Option<EditAction>)
      modifies this
      ensures old(tentativeFeature).None? ==> tentativeFeature == None && edit == None
      ensures old(tentativeFeature).Some? ==>
        tentativeFeature == None && edit == Some(AddFeatureAction(old(tentativeFeature).value, props.data))
    {
      edit := CommitTentativeFeature(event, props);
    }

    /** `_updateTentativeFeature`: a no-op on an empty slot. */
    method UpdateTentativeFeature(event: BaseEvent, props: ModeProps) returns (edit: Option<EditAction>)
      modifies this
      ensures old(tentativeFeature).None? ==> tentativeFeature == None && edit == None
      ensures old(tentativeFeature).Some? ==>
        && tentativeFeature == Some(WithPosition(old(tentativeFeature).value, event))
        && edit == Some(AddPositionAction(tentativeFeature.value, event, props.data))
    {
      if tentativeFeature.None? {
        return None;
      }
      var t := tentativeFeature.value;
      var updated := t.(geometry := Geometry(LineString, t.geometry.coordinates + [event.mapCoords]));
      tentativeFeature := Some(updated);
      edit := Some(EditAction(AddPosition, props.data,
        Some([EditContextEntry(updated, None, |updated.geometry.coordinates| - 1,
                               event.screenCoords, event.mapCoords)])));
    }

    /** `_commitTentativeFeature`: a no-op on an empty slot. */
    method CommitTentativeFeature(event: BaseEvent, props: ModeProps) returns (edit: Option<EditAction>)
      modifies this
      ensures old(tentativeFeature).None? ==> tentativeFeature == None && edit == None
      ensures old(tentativeFeature).Some? ==>
        tentativeFeature == None && edit == Some(AddFeatureAction(old(tentativeFeature).value, props.data))
    {
      if tentativeFeature.None? {
        return None;
      }
      var t := tentativeFeature.value;
      tentativeFeature := None;
      var feature := t.(properties := Properties(t.properties.id, Some(RenderLineString), None, None, None));
      var updatedData := props.data + [feature];
      edit := Some(EditAction(AddFeature, updatedData, None));
    }

    /** `_initTentativeFeature`: store a fresh one-vertex `Point`. */
    method InitTentativeFeature(event: BaseEvent, freshId: Id)
      modifies this
      ensures tentativeFeature == Some(InitialTentative(event, freshId))
    {
      tentativeFeature := Some(Feature(
        Properties(Some(freshId), Some(RenderLineString), Some(Tentative), None, None),
        Geometry(Point, [event.mapCoords])));
    }

    /**
     * `getGuides`: nothing when neither a selected feature nor a tentative
     * feature exists; otherwise the source feature's handles followed by a
     * cursor handle, and the source coordinates followed by the pointer.
     * The selected feature takes precedence over the tentative one. Being a
     * function, it leaves the slot as it is.
     */
    function GetGuides(props: ModeProps): (g: Option<Guides>)
      reads this
      requires GetSelectedFeature(props).Some? || tentativeFeature.Some? ==> props.lastPointerMoveEvent.Some?
      ensures g.None? <==> GetSelectedFeature(props).None? && tentativeFeature.None?
      ensures g.Some? ==>
        var source := if GetSelectedFeature(props).Some? then GetSelectedFeature(props).value
                      else tentativeFeature.value;
        var pointer := props.lastPointerMoveEvent.value.mapCoords;
        var existing := GetEditHandlesFromFeature(Some(source), None).value;
        var handles := g.value.editHandles;
        && |handles| == |existing| + 1
        && handles[..|existing|] == existing
        && handles[|existing|].properties.guideType == Some(CursorEditHandle)
        && handles[|existing|].properties.positionIndexes == Some([|existing|])
        && handles[|existing|].geometry == Geometry(Point, [pointer])
        && g.value.tentativeFeature.geometry
           == Geometry(LineString, source.geometry.coordinates + [pointer])
        && g.value.tentativeFeature.properties
           == (if tentativeFeature.Some? then tentativeFeature.value.properties else NoProperties)
    {
      var selectedFeature := GetSelectedFeature(props);
      var feature := if selectedFeature.Some? then selectedFeature else tentativeFeature;
      var coordinates := GetFeatureCoordinates(feature);
      if coordinates.None? then None
      else
        var pointer := props.lastPointerMoveEvent.value.mapCoords;
        var editHandles := match GetEditHandlesFromFeature(feature, None)
                           case Some(h) => h
                           case None => [];
        var cursorEditHandle := Feature(
          Properties(None, Some(RenderLineString), Some(CursorEditHandle), None, Some([|editHandles|])),
          Geometry(Point, [pointer]));
        var guideProperties := match tentativeFeature
                               case Some(t) => t.properties
                               case None => NoProperties;
        Some(Guides(Feature(guideProperties, Geometry(LineString, coordinates.value + [pointer])),
                    editHandles + [cursorEditHandle]))
    }
  }

  /**
   * With a two-vertex tentative line, no selection and pointer P, the guides
   * are a three-vertex line ending in P and three handles whose position
   * indexes are [0], [1] and [2].
   */
  lemma GuidesOfTwoVertexLine(mode: DrawLineStringMode, props: ModeProps, t: Feature)
    requires mode.tentativeFeature == Some(t) && |t.geometry.coordinates| == 2
    requires GetSelectedFeature(props).None? && props.lastPointerMoveEvent.Some?
    ensures var g := mode.GetGuides(props);
      && g.Some?
      && |g.value.tentativeFeature.geometry.coordinates| == 3
      && g.value.tentativeFeature.geometry.coordinates[2] == props.lastPointerMoveEvent.value.mapCoords
      && |g.value.editHandles| == 3
      && forall i :: 0 <= i < 3 ==> g.value.editHandles[i].properties.positionIndexes == Some([i])
  {
    var g := mode.GetGuides(props);
    var existing := GetEditHandlesFromFeature(Some(t), None).value;
    assert forall i :: 0 <= i < 2 ==> g.value.editHandles[i] == existing[i];
  }
}
