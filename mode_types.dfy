/**
 * The values that pass between the interaction controller and an edit mode:
 * normalized pointer events, picks, edit actions and the mode-props bundle.
 */
module ModeTypes {
  import opened Optional
  import opened GeoJson

  /** Pixel coordinates of a pointer event relative to the map container. */
  datatype ScreenCoords = ScreenCoords(x: real, y: real)

  datatype ElementType = ElementFeature | ElementEditHandle | ElementSegment | ElementFill

  /**
   * The object a pick names. `featureIndex` is `None` whenever the value the
   * picking function put there is not numeric (`isNumeric` fails).
   */
  datatype PickedObject = PickedObject(featureIndex: Option<int>, elementType: ElementType, index: Option<int>)

  /** One entry of `event.picks`; its `object` may be missing. */
  datatype Pick = Pick(pickedObject: Option<PickedObject>)

  /** A normalized event `{picks, screenCoords, mapCoords}`. */
  datatype BaseEvent = BaseEvent(picks: Option<seq<Pick>>, screenCoords: ScreenCoords, mapCoords: Position)

  /** A pointer-move event extended with the drag snapshot taken before the move. */
  datatype PointerMoveEvent = PointerMoveEvent(
    picks: Option<seq<Pick>>,
    screenCoords: ScreenCoords,
    mapCoords: Position,
    isDragging: bool,
    pointerDownPicks: Option<seq<Pick>>,
    pointerDownScreenCoords: Option<ScreenCoords>,
    pointerDownMapCoords: Option<Position>)

  /** The event handed to `handleStartDragging`. */
  datatype StartDraggingEvent = StartDraggingEvent(
    picks: Option<seq<Pick>>,
    screenCoords: ScreenCoords,
    mapCoords: Position,
    pointerDownScreenCoords: ScreenCoords,
    pointerDownMapCoords: Position)

  /** The event handed to `handleStopDragging`. */
  datatype StopDraggingEvent = StopDraggingEvent(
    picks: Option<seq<Pick>>,
    screenCoords: ScreenCoords,
    mapCoords: Position,
    pointerDownScreenCoords: Option<ScreenCoords>,
    pointerDownMapCoords: Option<Position>)

  datatype EditType = AddFeature | AddPosition | UpdatePosition | DeleteFeature | Translate

  /** Per-operation metadata of an edit action. */
  datatype EditContextEntry = EditContextEntry(
    feature: Feature,
    featureIndex: Option<int>,
    editHandleIndex: int,
    screenCoords: ScreenCoords,
    mapCoords: Position)

  /** What a mode hands to `onEdit`: the full next collection, not a diff. */
  datatype EditAction = EditAction(
    editType: EditType,
    updatedData: seq<Feature>,
    editContext: Option<seq<EditContextEntry>>)

  /** The bundle `getModeProps` builds for every mode call (viewport, modeConfig, cursor and the callbacks left out). */
  datatype ModeProps = ModeProps(
    data: seq<Feature>,
    selectedIndexes: seq<Option<int>>,
    lastPointerMoveEvent: Option<PointerMoveEvent>)
}
