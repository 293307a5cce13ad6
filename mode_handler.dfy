/**
 * The interaction controller (`ModeHandler`). It owns the editing state
 * record, turns pointer-down, pointer-move, pointer-up and click events into
 * updates of that record, resolves selection, applies edits, and calls the
 * active mode. `setState` is an immediate overwrite of the named fields.
 *
 * The active mode is abstract: every call the controller makes into it is
 * appended to `modeCalls`, and every callback it makes to the owning
 * application (`onSelect`, `onEdit`, `onUpdate`) to `ownerCalls`.
 */
module Controller {
  import opened Optional
  import opened GeoJson
  import opened ModeTypes

  // ---------------------------------------------------------------- modes

  datatype ModeName = ReadOnly | Select | Editing | DrawPoint | DrawPath | DrawRectangle | DrawPolygon

  /** Mode classes: the built-in ones, and any other constructor the owner passes. */
  datatype ModeConstructor =
    | ViewMode | TranslateMode | DrawPointMode | DrawLineStringMode | DrawRectangleMode | DrawPolygonMode
    | CustomMode(tag: nat)

  /**
   * The `mode` prop: unset, a mode name, a constructor, or any other value.
   * `tag` is the identity of that other value, so two distinct objects differ under `!==`.
   */
  datatype ModeProp = NoMode | Named(name: ModeName) | Constructor(ctor: ModeConstructor) | OtherMode(tag: nat)

  /** `MODE_NAME_MAPPING`. */
  function ModeNameMapping(name: ModeName): ModeConstructor
  {
    match name
    case ReadOnly => ViewMode
    case Select => ViewMode
    case Editing => TranslateMode
    case DrawPoint => DrawPointMode
    case DrawPath => DrawLineStringMode
    case DrawRectangle => DrawRectangleMode
    case DrawPolygon => DrawPolygonMode
  }

  /** One constructed mode object; `serial` tells instances apart. */
  datatype ModeInstance = ModeInstance(ctor: ModeConstructor, serial: nat)

  /** The instance `_setupModeInstance` creates for a mode prop, as the `serial`-th one. */
  function InstanceFor(mode: ModeProp, serial: nat): (r: Option<ModeInstance>)
    ensures r.Some? <==> mode.Named? || mode.Constructor?
    ensures mode.Named? ==> r == Some(ModeInstance(ModeNameMapping(mode.name), serial))
    ensures mode.Constructor? ==> r == Some(ModeInstance(mode.ctor, serial))
  {
    match mode
    case Named(n) => Some(ModeInstance(ModeNameMapping(n), serial))
    case Constructor(c) => Some(ModeInstance(c, serial))
    case _ => None
  }

  /** Click selection runs only for these two mode names. */
  predicate IsSelectingMode(mode: ModeProp)
  {
    mode == Named(Select) || mode == Named(Editing)
  }

  // ---------------------------------------------------------------- props and state

  /** The `features` prop when it is truthy: an immutable collection, a collection object, or an array. */
  datatype FeaturesSource =
    | ImmutableCollection(features: seq<Feature>)
    | CollectionObject(features: seq<Feature>)
    | FeatureArray(features: seq<Feature>)

  /** Whether the props object has a `selectedFeatureIndex` key, and its value. */
  datatype PropSelection = NotGiven | Given(index: Option<int>)

  datatype EditorProps = EditorProps(
    mode: ModeProp,
    features: Option<FeaturesSource>,
    selectedFeatureIndex: PropSelection,
    hasOnSelect: bool,
    hasOnEdit: bool,
    hasOnUpdate: bool)

  /** The hover record: the event's coordinates with the picked object spread in. */
  datatype Hovered = Hovered(screenCoords: ScreenCoords, mapCoords: Position, pickedObject: PickedObject)

  datatype EditorState = EditorState(
    featureCollection: seq<Feature>,
    selectedFeatureIndex: Option<int>,
    hovered: Option<Hovered>,
    isDragging: bool,
    didDrag: bool,
    lastPointerMoveEvent: Option<PointerMoveEvent>,
    pointerDownPicks: Option<seq<Pick>>,
    pointerDownScreenCoords: Option<ScreenCoords>,
    pointerDownMapCoords: Option<Position>)

  const DefaultState := EditorState([], None, None, false, false, None, None, None, None)

  /**
   * The pointer-down snapshot is taken and dropped as a whole, and neither
   * drag flag is set without one.
   */
  predicate SnapshotConsistent(s: EditorState)
  {
    && (s.pointerDownScreenCoords.Some? <==> s.pointerDownMapCoords.Some?)
    && (s.isDragging ==> s.pointerDownScreenCoords.Some?)
    && (s.didDrag ==> s.pointerDownScreenCoords.Some?)
  }

  /** The gesture automaton the state record encodes. */
  datatype GesturePhase = Idle | PointerDown | DragConfirmed

  function Phase(s: EditorState): GesturePhase
  {
    if s.didDrag then DragConfirmed
    else if s.pointerDownScreenCoords.Some? then PointerDown
    else Idle
  }

  // ---------------------------------------------------------------- callbacks

  datatype SelectAction = SelectAction(
    selectedFeature: Option<Feature>,
    selectedFeatureIndex: Option<int>,
    selectedEditHandleIndex: Option<int>,
    mapCoords: Position,
    screenCoords: ScreenCoords)

  /** What `onUpdate` receives. */
  datatype UpdateEvent = UpdateEvent(data: seq<Feature>, editType: EditType, editContext: Option<seq<EditContextEntry>>)

  datatype OwnerCall = OnSelectCall(selection: SelectAction) | OnEditCall(action: EditAction) | OnUpdateCall(update: UpdateEvent)

  datatype ModeHandlerCall =
    | HandleClick(clickEvent: BaseEvent, clickProps: ModeProps)
    | HandlePointerMove(moveEvent: PointerMoveEvent, moveProps: ModeProps)
    | HandleStartDragging(startEvent: StartDraggingEvent, startProps: ModeProps)
    | HandleStopDragging(stopEvent: StopDraggingEvent, stopProps: ModeProps)

  datatype ModeCall = ModeCall(instance: ModeInstance, call: ModeHandlerCall)

  /** The argument of `addFeatures`: one feature or an array. */
  datatype FeaturesArg = OneFeature(feature: Feature) | FeatureList(list: seq<Feature>)

  /** The argument of `deleteFeatures`: one index or an array. */
  datatype IndexesArg = OneIndex(index: int) | IndexList(indexes: seq<int>)

  /** `Array.isArray(x) ? x : [x]` */
  function FeaturesOf(arg: FeaturesArg): seq<Feature>
  {
    match arg
    case OneFeature(f) => [f]
    case FeatureList(fs) => fs
  }

  /** `Array.isArray(x) ? x : [x]` */
  function IndexesOf(arg: IndexesArg): seq<int>
  {
    match arg
    case OneIndex(i) => [i]
    case IndexList(list) => list
  }

  // ---------------------------------------------------------------- pure rules

  /**
   * `_getMemorizedFeatureCollection`: the props features win whenever they
   * are truthy, whatever shape they come in; otherwise the state's collection.
   */
  function MemorizedFeatureCollection(propsFeatures: Option<FeaturesSource>, stateFeatures: seq<Feature>)
    : (r: seq<Feature>)
    ensures propsFeatures.Some? ==> r == propsFeatures.value.features
    ensures propsFeatures.None? ==> r == stateFeatures
  {
    match propsFeatures
    case Some(ImmutableCollection(fs)) => fs
    case Some(CollectionObject(fs)) => fs
    case Some(FeatureArray(fs)) => fs
    case None => stateFeatures
  }

  /** `_getSelectedFeatureIndex`: a `selectedFeatureIndex` key in props wins, even when null. */
  function SelectedFeatureIndex(propSelection: PropSelection, stateSelection: Option<int>): (r: Option<int>)
    ensures propSelection.Given? ==> r == propSelection.index
    ensures propSelection.NotGiven? ==> r == stateSelection
  {
    match propSelection
    case Given(i) => i
    case NotGiven => stateSelection
  }

  /** `event.picks && event.picks[0] && event.picks[0].object` */
  function TopPickedObject(picks: Option<seq<Pick>>): (r: Option<PickedObject>)
    ensures r.Some? <==> picks.Some? && |picks.value| > 0 && picks.value[0].pickedObject.Some?
    ensures r.Some? ==> r.value == picks.value[0].pickedObject.value
  {
    if picks.Some? && |picks.value| > 0 then picks.value[0].pickedObject else None
  }

  /** The top pick names a feature by a numeric index. */
  predicate PicksFeature(picks: Option<seq<Pick>>)
  {
    TopPickedObject(picks).Some? && TopPickedObject(picks).value.featureIndex.Some?
  }

  /** `_getHoverState`: nothing without a picked object, else the object with the event's coordinates. */
  function HoverState(event: BaseEvent): (r: Option<Hovered>)
    ensures r.None? <==> TopPickedObject(event.picks).None?
    ensures r.Some? ==> r.value.pickedObject == TopPickedObject(event.picks).value
    ensures r.Some? ==> r.value.screenCoords == event.screenCoords && r.value.mapCoords == event.mapCoords
  {
    match TopPickedObject(event.picks)
    case None => None
    case Some(obj) => Some(Hovered(event.screenCoords, event.mapCoords, obj))
  }

  /**
   * The selection a click reports: the top pick's numeric feature index,
   * with its edit-handle index only when the pick is an edit handle;
   * otherwise an all-null selection.
   */
  function SelectionFor(event: BaseEvent, features: seq<Feature>): (sel: SelectAction)
    ensures sel.mapCoords == event.mapCoords && sel.screenCoords == event.screenCoords
    ensures PicksFeature(event.picks) ==>
      var obj := TopPickedObject(event.picks).value;
      && sel.selectedFeatureIndex == obj.featureIndex
      && sel.selectedFeature == FeatureAt(features, obj.featureIndex.value)
      && sel.selectedEditHandleIndex == (if obj.elementType == ElementEditHandle then obj.index else None)
    ensures !PicksFeature(event.picks) ==>
      sel.selectedFeature == None && sel.selectedFeatureIndex == None && sel.selectedEditHandleIndex == None
  {
    var obj := TopPickedObject(event.picks);
    if obj.Some? && obj.value.featureIndex.Some? then
      var index := obj.value.featureIndex.value;
      SelectAction(FeatureAt(features, index), Some(index),
                   if obj.value.elementType == ElementEditHandle then obj.value.index else None,
                   event.mapCoords, event.screenCoords)
    else
      SelectAction(None, None, None, event.mapCoords, event.screenCoords)
  }

  /** Whether some deleted index equals the selected index (`findIndex(...) >= 0`). */
  predicate DeletesSelection(indexes: seq<int>, selected: Option<int>)
  {
    exists k :: 0 <= k < |indexes| && Some(indexes[k]) == selected
  }

  /**
   * `indexes.findIndex(index => selected === index)`: the first position
   * holding the selected index, or -1 when there is none.
   */
  function FindIndex(indexes: seq<int>, selected: Option<int>): (k: int)
    ensures -1 <= k < |indexes|
    ensures k >= 0 ==> Some(indexes[k]) == selected && forall j :: 0 <= j < k ==> Some(indexes[j]) != selected
    ensures k >= 0 <==> DeletesSelection(indexes, selected)
    decreases |indexes|
  {
    if |indexes| == 0 then -1
    else if Some(indexes[0]) == selected then 0
    else
      var rest := FindIndex(indexes[1..], selected);
      if rest < 0 then -1 else rest + 1
  }

  /** The squared drag threshold, in square pixels. */
  const DragThreshold: real := 5.0

  /** The displacement from `down` to `now` is strictly beyond the threshold. */
  predicate ExceedsDragThreshold(down: ScreenCoords, now: ScreenCoords)
  {
    var dx := now.x - down.x;
    var dy := now.y - down.y;
    dx * dx + dy * dy > DragThreshold
  }

  /** A move to `now` confirms a drag: dragging, not yet confirmed, a pointer-down point, beyond the threshold. */
  predicate ConfirmsDrag(s: EditorState, now: ScreenCoords)
  {
    s.isDragging && !s.didDrag && s.pointerDownScreenCoords.Some?
    && ExceedsDragThreshold(s.pointerDownScreenCoords.value, now)
  }

  /** The event forwarded by a move: the event plus the drag snapshot before the move. */
  function MoveEventFor(s: EditorState, event: BaseEvent): PointerMoveEvent
  {
    PointerMoveEvent(event.picks, event.screenCoords, event.mapCoords,
                     s.isDragging, s.pointerDownPicks, s.pointerDownScreenCoords, s.pointerDownMapCoords)
  }

  /** The state record after `_onPointerMove`. */
  function AfterPointerMove(s: EditorState, event: BaseEvent): EditorState
  {
    s.(didDrag := s.didDrag || ConfirmsDrag(s, event.screenCoords),
       hovered := HoverState(event),
       lastPointerMoveEvent := Some(MoveEventFor(s, event)))
  }

  /** The state record after a run of pointer moves. */
  function AfterPointerMoves(s: EditorState, events: seq<BaseEvent>): EditorState
    decreases |events|
  {
    if |events| == 0 then s
    else AfterPointerMove(AfterPointerMoves(s, events[..|events| - 1]), events[|events| - 1])
  }

  /** `getModeProps`, read off the props and a state record. */
  function ModePropsFor(p: EditorProps, s: EditorState): (mp: ModeProps)
    ensures p.features.Some? ==> mp.data == p.features.value.features
    ensures p.features.None? ==> mp.data == s.featureCollection
    ensures p.selectedFeatureIndex.Given? ==> mp.selectedIndexes == [p.selectedFeatureIndex.index]
    ensures p.selectedFeatureIndex.NotGiven? ==> mp.selectedIndexes == [s.selectedFeatureIndex]
    ensures mp.lastPointerMoveEvent == s.lastPointerMoveEvent
  {
    ModeProps(MemorizedFeatureCollection(p.features, s.featureCollection),
              [SelectedFeatureIndex(p.selectedFeatureIndex, s.selectedFeatureIndex)],
              s.lastPointerMoveEvent)
  }

  // ---------------------------------------------------------------- gesture lemmas

  /** A move changes only the drag flag, the hover record and the last move. */
  lemma MoveKeepsSnapshot(s: EditorState, event: BaseEvent)
    ensures var t := AfterPointerMove(s, event);
      && t.isDragging == s.isDragging
      && t.pointerDownPicks == s.pointerDownPicks
      && t.pointerDownScreenCoords == s.pointerDownScreenCoords
      && t.pointerDownMapCoords == s.pointerDownMapCoords
      && t.featureCollection == s.featureCollection
      && t.selectedFeatureIndex == s.selectedFeatureIndex
      && (t.didDrag <==> s.didDrag || ConfirmsDrag(s, event.screenCoords))
      && Phase(t) == (if ConfirmsDrag(s, event.screenCoords) then DragConfirmed else Phase(s))
  {
  }

  /**
   * Moves that all stay within the threshold of the pointer-down point never
   * confirm a drag, so none of them is forwarded to the mode.
   */
  lemma {:induction false} SmallMovesNeverConfirmDrag(s: EditorState, events: seq<BaseEvent>)
    requires !s.didDrag
    requires forall k :: 0 <= k < |events| ==> !ConfirmsDrag(s, events[k].screenCoords)
    ensures !AfterPointerMoves(s, events).didDrag
    ensures AfterPointerMoves(s, events).isDragging == s.isDragging
    ensures AfterPointerMoves(s, events).pointerDownScreenCoords == s.pointerDownScreenCoords
    decreases |events|
  {
    if |events| > 0 {
      var n := |events| - 1;
      assert forall k :: 0 <= k < n ==> events[..n][k] == events[k];
      SmallMovesNeverConfirmDrag(s, events[..n]);
      assert !ConfirmsDrag(s, events[n].screenCoords);
    }
  }

  /** Once a drag is confirmed, every later move keeps it confirmed (and is forwarded). */
  lemma {:induction false} ConfirmedDragPersists(s: EditorState, events: seq<BaseEvent>)
    requires s.didDrag
    ensures AfterPointerMoves(s, events).didDrag
    decreases |events|
  {
    if |events| > 0 {
      ConfirmedDragPersists(s, events[..|events| - 1]);
    }
  }

  /**
   * After a pointer-down on a feature, the first move beyond the threshold
   * confirms the drag if all earlier moves stayed within it.
   */
  lemma FirstCrossingConfirmsDrag(s: EditorState, events: seq<BaseEvent>, crossing: BaseEvent)
    requires s.isDragging && !s.didDrag && s.pointerDownScreenCoords.Some?
    requires forall k :: 0 <= k < |events| ==> !ConfirmsDrag(s, events[k].screenCoords)
    requires ExceedsDragThreshold(s.pointerDownScreenCoords.value, crossing.screenCoords)
    ensures !AfterPointerMoves(s, events).didDrag
    ensures AfterPointerMoves(s, events + [crossing]).didDrag
  {
    SmallMovesNeverConfirmDrag(s, events);
    assert (events + [crossing])[..|events|] == events;
  }

  /** Adding a single feature appends exactly that feature, as a one-element array does. */
  lemma AddOneIsAddList(features: seq<Feature>, f: Feature)
    ensures features + FeaturesOf(OneFeature(f)) == features + FeaturesOf(FeatureList([f])) == features + [f]
  {
  }

  /**
   * Deleting a single index splices out exactly that feature (nothing when it
   * names no position), and clears the selection exactly when it equals it.
   */
  lemma DeleteOneIsDeleteList(features: seq<Feature>, i: int, selected: Option<int>)
    ensures 0 <= i < |features| ==>
      RemoveIndexes(features, IndexesOf(OneIndex(i))) == features[..i] + features[i + 1..]
    ensures !(0 <= i < |features|) ==> RemoveIndexes(features, IndexesOf(OneIndex(i))) == features
    ensures DeletesSelection(IndexesOf(OneIndex(i)), selected) <==> selected == Some(i)
  {
    assert IndexesOf(OneIndex(i)) == [i];
    assert IndexesOf(OneIndex(i))[0] == i;
    if 0 <= i < |features| {
      RemoveSingleIndex(features, i);
    } else {
      RemoveIndexesOutOfRange(features, [i]);
    }
  }

  // ---------------------------------------------------------------- the component

  class ModeHandler {
    var props: EditorProps
    var state: EditorState
    /** `_eventsRegistered` */
    var eventsRegistered: bool
    /** `_modeInstance` */
    var modeInstance: Option<ModeInstance>
    /** How many mode objects have been constructed so far. */
    var instancesCreated: nat
    /** Calls of `eventManager.on` and `eventManager.off` so far. */
    var listenersAdded: nat
    var listenersRemoved: nat
    /** The map container element and the context's event manager are present. */
    const hasContainer: bool
    const hasEventManager: bool
    var modeCalls: seq<ModeCall>
    var ownerCalls: seq<OwnerCall>

    /** Listeners are attached at most once, exactly while the flag is set. */
    ghost predicate Valid()
      reads this
    {
      && listenersAdded == listenersRemoved + (if eventsRegistered then 1 else 0)
      && SnapshotConsistent(state)
      && (modeInstance.Some? ==> modeInstance.value.serial < instancesCreated)
    }

    constructor (initialProps: EditorProps, container: bool, eventManager: bool)
      ensures Valid()
      ensures props == initialProps && state == DefaultState
      ensures !eventsRegistered && modeInstance == None && instancesCreated == 0
      ensures listenersAdded == 0 && listenersRemoved == 0
      ensures hasContainer == container && hasEventManager == eventManager
      ensures modeCalls == [] && ownerCalls == []
    {
      props := initialProps;
      state := DefaultState;
      eventsRegistered := false;
      modeInstance := None;
      instancesCreated := 0;
      listenersAdded, listenersRemoved := 0, 0;
      hasContainer, hasEventManager := container, eventManager;
      modeCalls, ownerCalls := [], [];
    }

    /** `getFeatures` / `_getImmutableFeatureCollection` */
    function GetFeatures(): seq<Feature>
      reads this
    {
      MemorizedFeatureCollection(props.features, state.featureCollection)
    }

    /** `_getSelectedFeatureIndex` */
    function GetSelectedFeatureIndex(): Option<int>
      reads this
    {
      SelectedFeatureIndex(props.selectedFeatureIndex, state.selectedFeatureIndex)
    }

    /** `_getSelectedFeature`: the feature at the given index, or at the selected one when none is given. */
    function GetSelectedFeature(featureIndex: Option<int>): (r: Option<Feature>)
      reads this
      ensures featureIndex.Some? ==> r == FeatureAt(GetFeatures(), featureIndex.value)
      ensures featureIndex.None? && GetSelectedFeatureIndex().None? ==> r == None
      ensures featureIndex.None? && GetSelectedFeatureIndex().Some? ==>
        r == FeatureAt(GetFeatures(), GetSelectedFeatureIndex().value)
    {
      var index := if featureIndex.Some? then featureIndex else GetSelectedFeatureIndex();
      if index.Some? then FeatureAt(GetFeatures(), index.value) else None
    }

    /** `getModeProps` */
    function GetModeProps(): (mp: ModeProps)
      reads this
      ensures mp.data == GetFeatures() && mp.selectedIndexes == [GetSelectedFeatureIndex()]
    {
      ModePropsFor(props, state)
    }

    /** `addFeatures`: the current features followed by the new ones become the state's collection. */
    method AddFeatures(features: FeaturesArg)
      requires Valid()
      modifies this`state
      ensures Valid()
      ensures state == old(state).(featureCollection := old(GetFeatures()) + FeaturesOf(features))
    {
      var featureCollection := GetFeatures();
      var list := match features
                  case OneFeature(f) => [f]
                  case FeatureList(fs) => fs;
      state := state.(featureCollection := featureCollection + list);
    }

    /**
     * `deleteFeatures`: the given positions are removed; the state's selection
     * is cleared exactly when a deleted index equals the current selected
     * index, and otherwise kept as the same number.
     */
    method DeleteFeatures(featureIndexes: IndexesArg)
      requires Valid()
      modifies this`state
      ensures Valid()
      ensures state == old(state).(
        featureCollection := RemoveIndexes(old(GetFeatures()), IndexesOf(featureIndexes)),
        selectedFeatureIndex :=
          if DeletesSelection(IndexesOf(featureIndexes), old(GetSelectedFeatureIndex())) then None
          else old(state.selectedFeatureIndex))
    {
      var featureCollection := GetFeatures();
      var selectedFeatureIndex := GetSelectedFeatureIndex();
      var indexes := match featureIndexes
                     case OneIndex(i) => [i]
                     case IndexList(list) => list;
      state := state.(featureCollection := RemoveIndexes(featureCollection, indexes));
      if FindIndex(indexes, selectedFeatureIndex) >= 0 {
        state := state.(selectedFeatureIndex := None);
      }
    }

    /** `_degregisterEvents`: detach the listeners if they are attached and the event manager is there. */
    method DeregisterEvents()
      requires Valid()
      modifies this`eventsRegistered, this`listenersRemoved
      ensures Valid()
      ensures eventsRegistered == (old(eventsRegistered) && !hasEventManager)
      ensures listenersRemoved == old(listenersRemoved) + (if old(eventsRegistered) && hasEventManager then 1 else 0)
    {
      if !hasEventManager {
        return;
      }
      if eventsRegistered {
        listenersRemoved := listenersRemoved + 1;
        eventsRegistered := false;
      }
    }

    /** `_registerEvents`: attach the listeners once; registering again attaches nothing. */
    method RegisterEvents()
      requires Valid()
      modifies this`eventsRegistered, this`listenersAdded
      ensures Valid()
      ensures eventsRegistered == (old(eventsRegistered) || (hasContainer && hasEventManager))
      ensures listenersAdded
           == old(listenersAdded) + (if !old(eventsRegistered) && hasContainer && hasEventManager then 1 else 0)
      ensures old(eventsRegistered) ==> listenersAdded == old(listenersAdded)
    {
      if !hasContainer || !hasEventManager {
        return;
      }
      if eventsRegistered {
        return;
      }
      listenersAdded := listenersAdded + 1;
      eventsRegistered := true;
    }

    /** `_setupModeInstance`: no mode detaches the listeners; any mode attaches them and builds a fresh instance. */
    method SetupModeInstance()
      requires Valid()
      modifies this`eventsRegistered, this`listenersAdded, this`listenersRemoved, this`modeInstance,
               this`instancesCreated
      ensures Valid()
      ensures props.mode.NoMode? ==>
        && eventsRegistered == (old(eventsRegistered) && !hasEventManager)
        && listenersAdded == old(listenersAdded)
        && listenersRemoved == old(listenersRemoved) + (if old(eventsRegistered) && hasEventManager then 1 else 0)
      ensures !props.mode.NoMode? ==>
        && eventsRegistered == (old(eventsRegistered) || (hasContainer && hasEventManager))
        && listenersAdded
           == old(listenersAdded) + (if !old(eventsRegistered) && hasContainer && hasEventManager then 1 else 0)
        && listenersRemoved == old(listenersRemoved)
      ensures modeInstance == InstanceFor(props.mode, old(instancesCreated))
      ensures instancesCreated == old(instancesCreated) + (if modeInstance.Some? then 1 else 0)
    {
      if props.mode.NoMode? {
        DeregisterEvents();
        modeInstance := None;
        return;
      }
      RegisterEvents();
      match props.mode {
        case Constructor(c) =>
          modeInstance := Some(ModeInstance(c, instancesCreated));
          instancesCreated := instancesCreated + 1;
        case Named(n) =>
          modeInstance := Some(ModeInstance(ModeNameMapping(n), instancesCreated));
          instancesCreated := instancesCreated + 1;
        case OtherMode(_) =>
          modeInstance := None;
      }
    }

    /** `_clearEditingState`: selection, hover and the whole drag snapshot go; collection and last move stay. */
    method ClearEditingState()
      requires Valid()
      modifies this`state
      ensures Valid()
      ensures state == old(state).(
        selectedFeatureIndex := None,
        hovered := None,
        pointerDownPicks := None,
        pointerDownScreenCoords := None,
        pointerDownMapCoords := None,
        isDragging := false,
        didDrag := false)
      ensures Phase(state) == Idle
    {
      state := state.(
        selectedFeatureIndex := None,
        hovered := None,
        pointerDownPicks := None,
        pointerDownScreenCoords := None,
        pointerDownMapCoords := None,
        isDragging := false,
        didDrag := false);
    }

    /** `componentDidUpdate`: new props; a changed mode clears the editing state and sets up a new instance. */
    method ReceiveProps(newProps: EditorProps)
      requires Valid()
      modifies this`props, this`state, this`eventsRegistered, this`listenersAdded, this`listenersRemoved,
               this`modeInstance, this`instancesCreated
      ensures Valid()
      ensures props == newProps
      ensures old(props.mode) == newProps.mode ==>
        && state == old(state) && modeInstance == old(modeInstance) && instancesCreated == old(instancesCreated)
        && eventsRegistered == old(eventsRegistered)
        && listenersAdded == old(listenersAdded) && listenersRemoved == old(listenersRemoved)
      ensures old(props.mode) != newProps.mode ==>
        && state == old(state).(
             selectedFeatureIndex := None,
             hovered := None,
             pointerDownPicks := None,
             pointerDownScreenCoords := None,
             pointerDownMapCoords := None,
             isDragging := false,
             didDrag := false)
        && modeInstance == InstanceFor(newProps.mode, old(instancesCreated))
        && (newProps.mode.NoMode? ==> !eventsRegistered || !hasEventManager)
        && (!newProps.mode.NoMode? ==> eventsRegistered == (old(eventsRegistered) || (hasContainer && hasEventManager)))
    {
      var prevMode := props.mode;
      props := newProps;
      if prevMode != props.mode {
        ClearEditingState();
        SetupModeInstance();
      }
    }

    /** `_onSelect`: store the selected index and tell the owner. */
    method OnSelect(selected: SelectAction)
      requires Valid()
      modifies this`state, this`ownerCalls
      ensures Valid()
      ensures state == old(state).(selectedFeatureIndex := selected.selectedFeatureIndex)
      ensures ownerCalls == old(ownerCalls) + (if props.hasOnSelect then [OnSelectCall(selected)] else [])
    {
      state := state.(selectedFeatureIndex := selected.selectedFeatureIndex);
      if props.hasOnSelect {
        ownerCalls := ownerCalls + [OnSelectCall(selected)];
      }
    }

    /** `_onUpdate`: replace the state's collection; tell the owner unless the edit is internal. */
    method OnUpdate(editAction: EditAction, isInternal: bool)
      requires Valid()
      modifies this`state, this`ownerCalls
      ensures Valid()
      ensures state == old(state).(featureCollection := editAction.updatedData)
      ensures ownerCalls == old(ownerCalls) +
        (if props.hasOnUpdate && !isInternal
         then [OnUpdateCall(UpdateEvent(editAction.updatedData, editAction.editType, editAction.editContext))]
         else [])
    {
      state := state.(featureCollection := editAction.updatedData);
      if props.hasOnUpdate && !isInternal {
        ownerCalls := ownerCalls +
          [OnUpdateCall(UpdateEvent(editAction.updatedData, editAction.editType, editAction.editContext))];
      }
    }

    /**
     * `_onEdit`: always forward the action to the owner's `onEdit`; take over
     * its collection only when the features are not controlled by props.
     */
    method OnEdit(editAction: EditAction)
      requires Valid()
      modifies this`state, this`ownerCalls
      ensures Valid()
      ensures ownerCalls == old(ownerCalls) + (if props.hasOnEdit then [OnEditCall(editAction)] else [])
      ensures props.features.None? ==> state == old(state).(featureCollection := editAction.updatedData)
      ensures props.features.Some? ==> state == old(state)
      ensures GetFeatures() == if props.features.None? then editAction.updatedData else old(GetFeatures())
    {
      if props.hasOnEdit {
        ownerCalls := ownerCalls + [OnEditCall(editAction)];
      }
      if props.features.None? {
        state := state.(featureCollection := editAction.updatedData);
      }
    }

    /**
     * `_onClick`: in SELECT or EDITING mode resolve the selection from the top
     * pick; in every mode then hand the click to the mode with fresh props.
     */
    method OnClick(event: BaseEvent)
      requires Valid() && modeInstance.Some?
      modifies this`state, this`ownerCalls, this`modeCalls
      ensures Valid()
      ensures IsSelectingMode(props.mode) ==>
        var selection := SelectionFor(event, old(GetFeatures()));
        && state == old(state).(selectedFeatureIndex := selection.selectedFeatureIndex)
        && ownerCalls == old(ownerCalls) + (if props.hasOnSelect then [OnSelectCall(selection)] else [])
      ensures !IsSelectingMode(props.mode) ==> state == old(state) && ownerCalls == old(ownerCalls)
      ensures modeCalls == old(modeCalls) + [ModeCall(modeInstance.value, HandleClick(event, GetModeProps()))]
    {
      if props.mode == Named(Select) || props.mode == Named(Editing) {
        var pickedObject := TopPickedObject(event.picks);
        if pickedObject.Some? && pickedObject.value.featureIndex.Some? {
          var selectedFeatureIndex := pickedObject.value.featureIndex;
          var selectedFeature := GetSelectedFeature(selectedFeatureIndex);
          OnSelect(SelectAction(
            selectedFeature,
            selectedFeatureIndex,
            if pickedObject.value.elementType == ElementEditHandle then pickedObject.value.index else None,
            event.mapCoords,
            event.screenCoords));
        } else {
          OnSelect(SelectAction(None, None, None, event.mapCoords, event.screenCoords));
        }
      }
      var modeProps := GetModeProps();
      modeCalls := modeCalls + [ModeCall(modeInstance.value, HandleClick(event, modeProps))];
    }

    /**
     * `_onPointerMove`: confirm the drag when the threshold is crossed for the
     * first time, forward the move to the mode exactly while the drag is
     * confirmed (the crossing move included), then record hover and the move.
     */
    method OnPointerMove(event: BaseEvent)
      requires Valid() && modeInstance.Some?
      modifies this`state, this`modeCalls
      ensures Valid()
      ensures state == AfterPointerMove(old(state), event)
      ensures state.didDrag <==> old(state.didDrag) || ConfirmsDrag(old(state), event.screenCoords)
      ensures modeCalls == old(modeCalls) +
        (if state.didDrag
         then [ModeCall(modeInstance.value,
                        HandlePointerMove(MoveEventFor(old(state), event), ModePropsFor(props, old(state))))]
         else [])
    {
      var hovered := HoverState(event);
      var isDragging := state.isDragging;
      var didDrag := state.didDrag;
      var pointerDownPicks := state.pointerDownPicks;
      var pointerDownScreenCoords := state.pointerDownScreenCoords;
      var pointerDownMapCoords := state.pointerDownMapCoords;

      if isDragging && !didDrag && pointerDownScreenCoords.Some? {
        var dx := event.screenCoords.x - pointerDownScreenCoords.value.x;
        var dy := event.screenCoords.y - pointerDownScreenCoords.value.y;
        if dx * dx + dy * dy > DragThreshold {
          state := state.(didDrag := true);
        }
      }

      var pointerMoveEvent := PointerMoveEvent(event.picks, event.screenCoords, event.mapCoords,
        isDragging, pointerDownPicks, pointerDownScreenCoords, pointerDownMapCoords);

      if state.didDrag {
        var modeProps := GetModeProps();
        modeCalls := modeCalls + [ModeCall(modeInstance.value, HandlePointerMove(pointerMoveEvent, modeProps))];
      }

      state := state.(hovered := hovered, lastPointerMoveEvent := Some(pointerMoveEvent));
    }

    /**
     * `_onPointerDown`: dragging starts only on a pick with a numeric feature
     * index; the picks and both coordinates are recorded; the mode is always
     * told, with the event's own coordinates as the pointer-down ones.
     */
    method OnPointerDown(event: BaseEvent)
      requires Valid() && modeInstance.Some?
      modifies this`state, this`modeCalls
      ensures Valid()
      ensures state == old(state).(
        isDragging := PicksFeature(event.picks),
        pointerDownPicks := event.picks,
        pointerDownScreenCoords := Some(event.screenCoords),
        pointerDownMapCoords := Some(event.mapCoords))
      ensures Phase(state) == if old(state.didDrag) then DragConfirmed else PointerDown
      ensures modeCalls == old(modeCalls) + [ModeCall(modeInstance.value, HandleStartDragging(
        StartDraggingEvent(event.picks, event.screenCoords, event.mapCoords, event.screenCoords, event.mapCoords),
        GetModeProps()))]
    {
      var pickedObject := TopPickedObject(event.picks);
      var startDraggingEvent := StartDraggingEvent(event.picks, event.screenCoords, event.mapCoords,
                                                   event.screenCoords, event.mapCoords);
      state := state.(
        isDragging := pickedObject.Some? && pickedObject.value.featureIndex.Some?,
        pointerDownPicks := event.picks,
        pointerDownScreenCoords := Some(event.screenCoords),
        pointerDownMapCoords := Some(event.mapCoords));
      var modeProps := GetModeProps();
      modeCalls := modeCalls + [ModeCall(modeInstance.value, HandleStartDragging(startDraggingEvent, modeProps))];
    }

    /**
     * `_onPointerUp`: both drag flags and the snapshot are reset; the mode is
     * always told, with the pointer-down coordinates taken before the reset.
     */
    method OnPointerUp(event: BaseEvent)
      requires Valid() && modeInstance.Some?
      modifies this`state, this`modeCalls
      ensures Valid()
      ensures state == old(state).(
        isDragging := false,
        didDrag := false,
        pointerDownPicks := None,
        pointerDownScreenCoords := None,
        pointerDownMapCoords := None)
      ensures Phase(state) == Idle
      ensures modeCalls == old(modeCalls) + [ModeCall(modeInstance.value, HandleStopDragging(
        StopDraggingEvent(event.picks, event.screenCoords, event.mapCoords,
                          old(state.pointerDownScreenCoords), old(state.pointerDownMapCoords)),
        GetModeProps()))]
    {
      var stopDraggingEvent := StopDraggingEvent(event.picks, event.screenCoords, event.mapCoords,
        state.pointerDownScreenCoords, state.pointerDownMapCoords);
      state := state.(
        isDragging := false,
        didDrag := false,
        pointerDownPicks := None,
        pointerDownScreenCoords := None,
        pointerDownMapCoords := None);
      var modeProps := GetModeProps();
      modeCalls := modeCalls + [ModeCall(modeInstance.value, HandleStopDragging(stopDraggingEvent, modeProps))];
    }
  }
}
