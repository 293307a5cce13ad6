# react-map-gl-draw editing core, modelled in Dafny

This project models the two sequential state machines at the centre of the
react-map-gl-draw editing layer.

- **The interaction controller `ModeHandler`** (`mode_handler.dfy`, module
  `Controller`). It is a class over the editing state record
  (`featureCollection`, `selectedFeatureIndex`, `hovered`, `isDragging`,
  `didDrag`, `lastPointerMoveEvent`, `pointerDownPicks`,
  `pointerDownScreenCoords`, `pointerDownMapCoords`), the
  `_eventsRegistered` flag and the `_modeInstance` slot.
  - Its handlers turn pointer-down, pointer-move, pointer-up and click
    events into updates of that record.
  - `setState` is modelled as an immediate overwrite of the named fields.
    This is the reading the model adopts: the event manager calls the
    handlers directly, outside React's own event system, and React before
    version 18 applies such updates at once. Under it, the move that crosses
    the drag threshold is itself forwarded to the mode. Under React 18's
    automatic batching, `this.state.didDrag` would still hold its pre-move
    value when read in the same handler, and the crossing move would not be
    forwarded; only the next move would be.
  - The active mode is abstract. Every call into it is appended to
    `modeCalls`, together with the instance, the event and the mode props it
    was given. Callbacks to the owning application (`onSelect`, `onEdit`,
    `onUpdate`) are appended to `ownerCalls`.
  - The pure rules are functions on values. These are feature-source and
    selection precedence, the top pick, hover, the click selection, the drag
    threshold and the mode-props bundle. A run of pointer moves is the fold
    `AfterPointerMoves`, and the lemmas about gestures are stated on it.
- **`DrawLineStringMode`** (`draw_line_string_mode.dfy`, module
  `DrawLineString`). It is a class whose one field is the optional
  tentative feature. Its methods are tied to pure transition functions
  (`SlotAfterClick`, `ClickAction`, `AddFeatureAction`). The lemmas about N
  clicks followed by a commit are stated on the fold `SlotAfterClicks`.
  `GetGuides` is a function of the slot and the mode props.

Shared values (positions, features, picks, events, edit actions, mode props)
are in `geojson.dfy` (modules `Optional`, `GeoJson`) and `mode_types.dfy`
(module `ModeTypes`). A feature collection is a `seq<Feature>`. It is never
changed in place, so an earlier snapshot stays valid. `addFeatures` of the
immutable collection is append. `deleteFeatures` is `GeoJson.RemoveIndexes`,
which keeps the features whose positions are not named, in order.

`mode_utils.dfy` (module `ModeUtils`) gives plain stand-ins for helpers whose
files are not part of this model:
- `getFeatureCoordinates` returns the geometry's coordinates.
- `BaseMode.getSelectedFeature` returns the feature at the first selected
  index.
- `BaseMode.getEditHandlesFromFeature` returns one handle per vertex; handle
  `i` has `positionIndexes` `[i]`.

The `getGuides` contract is stated against these stand-ins. Only the
two-vertex example lemma uses their detailed shape.

The model follows the code in these points:
- `handleStartDragging` is called on every pointer-down.
  `handleStopDragging` is called on every pointer-up, not only after a
  confirmed drag.
- Pointer-down never clears `didDrag`. Only pointer-up and a mode change
  (`_clearEditingState`) reset it.
- Click selection runs only when `mode` is the name `SELECT` or `EDITING`. A
  mode passed as a constructor never selects.
- The `ADD_POSITION` edit context has `featureIndex` null. Its
  `editHandleIndex` is the new coordinate count minus one.

## Model

| member | source | states |
|---|---|---|
| Controller.DefaultState | modules/react-map-gl-draw/src/mode-handler.js:45-64 | the default editing state: empty collection, no selection, hover, last move or pointer-down snapshot, both drag flags false |
| Controller.ModeHandler.constructor | modules/react-map-gl-draw/src/mode-handler.js:45-84 | the state starts as the default record (empty collection, nothing selected or hovered, both drag flags false, no snapshot), events unregistered, no mode instance |
| Controller.ModeNameMapping | modules/react-map-gl-draw/src/mode-handler.js:28-36 | the fixed table from mode names to mode classes (READ_ONLY and SELECT to the view mode, EDITING to the translate mode, the three drawing names to their drawing modes) |
| Controller.FeaturesOf | modules/react-map-gl-draw/src/mode-handler.js:116-118 | a single feature is wrapped as a one-element array; an array is used as given |
| Controller.IndexesOf | modules/react-map-gl-draw/src/mode-handler.js:129-131 | a single index is wrapped as a one-element array; an array is used as given |
| Controller.ModeHandler.GetFeatures | modules/react-map-gl-draw/src/mode-handler.js:107-111 | the exposed features are the memorized collection of the current props and state (see `_getImmutableFeatureCollection`, lines 186-191) |
| Controller.ModeHandler.GetSelectedFeatureIndex | modules/react-map-gl-draw/src/mode-handler.js:230-235 | the effective selection: the props key when present, else the state's |
| Controller.ModeHandler.AddFeatures | modules/react-map-gl-draw/src/mode-handler.js:113-123 | the state's collection becomes the current features (props ones when truthy) followed by the added ones; a single feature is wrapped as a one-element array; nothing else changes |
| Controller.AddOneIsAddList | modules/react-map-gl-draw/src/mode-handler.js:116-120 | adding one feature gives the same collection as adding a one-element array: the old features with that feature appended |
| Controller.ModeHandler.DeleteFeatures | modules/react-map-gl-draw/src/mode-handler.js:125-139 | the named positions are removed from the current features; the selection is cleared exactly when some deleted index equals the current selected index (props one if given), and otherwise stays the same number even though indexes shift |
| Controller.FindIndex | modules/react-map-gl-draw/src/mode-handler.js:134 | returns the first position holding the selected index, or -1 exactly when no deleted index equals it |
| Controller.DeletesSelection | modules/react-map-gl-draw/src/mode-handler.js:134 | the reference condition for clearing the selection: some deleted index equals the selected index |
| Controller.DeleteOneIsDeleteList | modules/react-map-gl-draw/src/mode-handler.js:129-136 | a single index is wrapped as `[i]`: it splices out exactly the feature at `i` (nothing when `i` names no position), and clears the selection exactly when it equals `i` |
| GeoJson.RemoveIndexes | modules/react-map-gl-draw/src/mode-handler.js:132 | deleting never lengthens the collection |
| GeoJson.RemoveIndexesSubMultiset | modules/react-map-gl-draw/src/mode-handler.js:132 | deleting never adds features: the multiset of the result is contained in the original's |
| GeoJson.RemoveIndexesOutOfRange | modules/react-map-gl-draw/src/mode-handler.js:132 | indexes naming no position delete nothing |
| GeoJson.RemoveSingleIndex | modules/react-map-gl-draw/src/mode-handler.js:132 | deleting one valid index splices exactly that feature out and shortens the collection by one |
| Controller.ModePropsFor | modules/react-map-gl-draw/src/mode-handler.js:141-163 | the bundle's data are the props features when truthy, else the state's; its selected indexes are the one-element list of the props selection when the key is given, else the state's; it carries the last pointer-move event |
| Controller.ModeHandler.GetModeProps | modules/react-map-gl-draw/src/mode-handler.js:141-163 | the bundle's data are the features the controller currently exposes and its selected indexes are the one-element list of the effective selection |
| Controller.MemorizedFeatureCollection | modules/react-map-gl-draw/src/mode-handler.js:166-184 | props features win over the state's collection exactly when they are truthy, whichever of the three shapes they take |
| Controller.InstanceFor | modules/react-map-gl-draw/src/mode-handler.js:204-211 | a constructor gives an instance of itself, a mode name an instance of its mapped class, any other value no instance |
| Controller.ModeHandler.SetupModeInstance | modules/react-map-gl-draw/src/mode-handler.js:193-212 | with no mode the listeners are detached and the instance cleared; with a mode they are attached (at most once) and a fresh instance is built from it; the listener balance is preserved |
| Controller.ModeHandler.ClearEditingState | modules/react-map-gl-draw/src/mode-handler.js:215-228 | selection, hover and the three pointer-down fields become null and both drag flags false; collection and last move are untouched; the gesture phase is idle |
| Controller.ModeHandler.ReceiveProps | modules/react-map-gl-draw/src/mode-handler.js:90-95 | a changed mode (by `!==`: another name, another constructor, or another object) clears the editing state and sets up a fresh instance; an unchanged mode leaves state, instance and registration alone |
| Controller.SelectedFeatureIndex | modules/react-map-gl-draw/src/mode-handler.js:230-235 | a `selectedFeatureIndex` key in props wins over the state even when its value is null; without the key the state's selection is used |
| GeoJson.FeatureAt | modules/react-map-gl-draw/src/mode-handler.js:240 | `features[i]`: the feature at `i` exactly when `i` is a position of the collection, otherwise `undefined` |
| Controller.ModeHandler.GetSelectedFeature | modules/react-map-gl-draw/src/mode-handler.js:237-241 | the feature at the given index of the current features, or at the effective selected index when no index is given; null outside the collection |
| Controller.ModeHandler.OnSelect | modules/react-map-gl-draw/src/mode-handler.js:243-248 | the selected index is stored and the owner's `onSelect` receives the selection when it is set |
| Controller.ModeHandler.OnUpdate | modules/react-map-gl-draw/src/mode-handler.js:250-260 | the state's collection becomes the updated data; the owner's `onUpdate` is called unless the edit is internal |
| Controller.ModeHandler.OnEdit | modules/react-map-gl-draw/src/mode-handler.js:262-271 | the action always goes to the owner's `onEdit` when it is set; the internal collection is replaced only when props features are unset, so the exposed features are the updated data exactly then |
| Controller.ModeHandler.DeregisterEvents | modules/react-map-gl-draw/src/mode-handler.js:274-284 | registered listeners are detached once when the event manager is present; otherwise nothing changes |
| Controller.ModeHandler.RegisterEvents | modules/react-map-gl-draw/src/mode-handler.js:286-299 | listeners are attached only when container and event manager exist and they are not attached yet, so registering twice registers once |
| Controller.IsSelectingMode | modules/react-map-gl-draw/src/mode-handler.js:312 | click selection runs exactly when the mode is the name SELECT or EDITING |
| Controller.PicksFeature | modules/react-map-gl-draw/src/mode-handler.js:315 | the top pick has an object with a numeric feature index (the same test sets `isDragging` at line 388) |
| Controller.TopPickedObject | modules/react-map-gl-draw/src/mode-handler.js:314 | the picked object exists exactly when the picks exist, are non-empty and the first one has an object, and then it is that object |
| Controller.SelectionFor | modules/react-map-gl-draw/src/mode-handler.js:313-334 | a top pick with a numeric feature index selects that index and its feature; the edit-handle index is the pick's index only for an edit handle; any other pick gives an all-null selection; the event's coordinates are kept |
| Controller.ModeHandler.OnClick | modules/react-map-gl-draw/src/mode-handler.js:310-339 | in SELECT or EDITING mode the click's selection is stored and reported; in other modes the state is untouched; the mode's `handleClick` is called afterwards in every mode, with props read after the selection |
| Controller.HoverState | modules/react-map-gl-draw/src/mode-handler.js:452-463 | hover is null exactly when there is no picked object, and otherwise holds that object and the event's coordinates |
| Controller.DragThreshold | modules/react-map-gl-draw/src/mode-handler.js:355 | the drag threshold is 5 squared pixels |
| Controller.ExceedsDragThreshold | modules/react-map-gl-draw/src/mode-handler.js:353-355 | the squared screen distance from the pointer-down point is strictly above 5 |
| Controller.ConfirmsDrag | modules/react-map-gl-draw/src/mode-handler.js:352-355 | a move confirms a drag exactly when dragging, not yet confirmed, a pointer-down point exists and the threshold is exceeded |
| Controller.MoveEventFor | modules/react-map-gl-draw/src/mode-handler.js:360-366 | the forwarded move event is the event plus the dragging flag and pointer-down snapshot read before the move |
| Controller.AfterPointerMove | modules/react-map-gl-draw/src/mode-handler.js:341-377 | the state after one move: `didDrag` set on confirmation, hover and last move recorded, everything else kept |
| Controller.ModeHandler.OnPointerMove | modules/react-map-gl-draw/src/mode-handler.js:341-377 | `didDrag` becomes true only when dragging, not yet confirmed, a pointer-down point exists and dx²+dy² > 5 strictly; the move is forwarded exactly while `didDrag` holds afterwards, with the pre-move snapshot; hover and last move are recorded |
| Controller.MoveKeepsSnapshot | modules/react-map-gl-draw/src/mode-handler.js:352-376 | a move keeps the pointer-down snapshot, the dragging flag, collection and selection, and moves the gesture phase from pointer-down to drag-confirmed exactly when it crosses the threshold |
| Controller.SmallMovesNeverConfirmDrag | modules/react-map-gl-draw/src/mode-handler.js:352-371 | any run of moves that stays within the threshold never sets `didDrag`, so no move of it reaches the mode's drag handling |
| Controller.ConfirmedDragPersists | modules/react-map-gl-draw/src/mode-handler.js:352-358 | once `didDrag` is set, no run of moves clears it, so every later move is forwarded |
| Controller.FirstCrossingConfirmsDrag | modules/react-map-gl-draw/src/mode-handler.js:352-371 | after a pointer-down on a feature, small moves leave the drag unconfirmed and the first move beyond the threshold confirms it |
| Controller.ModeHandler.OnPointerDown | modules/react-map-gl-draw/src/mode-handler.js:379-398 | `isDragging` is true exactly when the top pick has a numeric feature index; picks and both coordinates are recorded; `didDrag` is kept; `handleStartDragging` is always called with pointer-down coordinates equal to the event's own |
| Controller.ModeHandler.OnPointerUp | modules/react-map-gl-draw/src/mode-handler.js:400-419 | both drag flags become false and the three pointer-down fields null; `handleStopDragging` is called unconditionally with the pointer-down coordinates captured before the reset |
| DrawLineString.SlotAfterClick | modules/react-map-gl-draw/src/edit-modes/draw-line-string-mode.ts:11-20 | the tentative slot after one click: initialised when empty, else extended by the click position |
| DrawLineString.ClickAction | modules/react-map-gl-draw/src/edit-modes/draw-line-string-mode.ts:11-20 | the edit one click reports: none on the initialising click, else the `ADD_POSITION` of the extension |
| DrawLineString.InitialTentative | modules/react-map-gl-draw/src/edit-modes/draw-line-string-mode.ts:134-147 | the first tentative feature: a one-vertex `Point` at the click with the fresh id, LINE_STRING and TENTATIVE |
| DrawLineString.WithPosition | modules/react-map-gl-draw/src/edit-modes/draw-line-string-mode.ts:80-87 | the tentative feature with the click position appended and its geometry made a `LineString`, properties kept |
| DrawLineString.AddPositionAction | modules/react-map-gl-draw/src/edit-modes/draw-line-string-mode.ts:90-103 | the `ADD_POSITION` action: unchanged data and one context entry with the updated feature, null feature index, edit-handle index the new length minus one, and the click coordinates |
| DrawLineString.CommittedFeature | modules/react-map-gl-draw/src/edit-modes/draw-line-string-mode.ts:115-122 | the committed feature keeps the geometry and only `id` and LINE_STRING of the properties |
| DrawLineString.AddFeatureAction | modules/react-map-gl-draw/src/edit-modes/draw-line-string-mode.ts:124-130 | the `ADD_FEATURE` action: the data followed by the committed feature, with a null context |
| DrawLineString.DrawLineStringMode.HandleClick | modules/react-map-gl-draw/src/edit-modes/draw-line-string-mode.ts:11-20 | an empty slot is initialised, and a filled one is extended; the reported action is the update's `ADD_POSITION`, or nothing for the initialising click |
| DrawLineString.DrawLineStringMode.HandleDblClick | modules/react-map-gl-draw/src/edit-modes/draw-line-string-mode.ts:22-24 | a double-click is a commit and adds no point of its own |
| DrawLineString.DrawLineStringMode.GetGuides | modules/react-map-gl-draw/src/edit-modes/draw-line-string-mode.ts:26-72 | no guides exactly when neither a selected nor a tentative feature exists; the selected feature takes precedence; handles are the existing ones plus one cursor handle with position index k (k existing handles) at the pointer; the guide line is the source coordinates plus the pointer; the slot is only read |
| DrawLineString.GuidesOfTwoVertexLine | modules/react-map-gl-draw/src/edit-modes/draw-line-string-mode.ts:42-66 | a two-vertex tentative line and pointer P give a three-vertex guide line ending in P and three handles with position indexes [0], [1], [2] |
| DrawLineString.DrawLineStringMode.UpdateTentativeFeature | modules/react-map-gl-draw/src/edit-modes/draw-line-string-mode.ts:74-104 | on an empty slot nothing changes and no edit fires; otherwise the click position is appended as a `LineString` and one `ADD_POSITION` on the unchanged collection is reported |
| DrawLineString.DrawLineStringMode.CommitTentativeFeature | modules/react-map-gl-draw/src/edit-modes/draw-line-string-mode.ts:106-131 | on an empty slot nothing changes and no edit fires; otherwise the slot empties and `ADD_FEATURE` reports the old features followed by the committed feature, with a null context |
| DrawLineString.DrawLineStringMode.InitTentativeFeature | modules/react-map-gl-draw/src/edit-modes/draw-line-string-mode.ts:133-148 | the slot holds a one-vertex `Point` at the click with a fresh id, TENTATIVE guide type and LINE_STRING render type |
| DrawLineString.FirstClickStartsFeature | modules/react-map-gl-draw/src/edit-modes/draw-line-string-mode.ts:133-148 | the first click on an empty slot creates geometry `Point` with coordinates `[mapCoords]`, guide type TENTATIVE, render type LINE_STRING and the fresh id, and emits no action |
| DrawLineString.ClicksAccumulate | modules/react-map-gl-draw/src/edit-modes/draw-line-string-mode.ts:80-88 | after N clicks the tentative coordinates are exactly the N click positions in order; the geometry is `Point` for N = 1 and `LineString` after; the first click's properties are kept |
| DrawLineString.LaterClickAddsPosition | modules/react-map-gl-draw/src/edit-modes/draw-line-string-mode.ts:90-103 | a click after N clicks reports exactly one `ADD_POSITION` whose data is the unchanged collection, with null feature index and edit-handle index N (1 on the second click) |
| DrawLineString.DrawnFeatureIsCommitted | modules/react-map-gl-draw/src/edit-modes/draw-line-string-mode.ts:112-130 | N clicks and a commit append one feature last; its coordinates are the N click positions in order, it is a `Point` exactly when N = 1, and its properties are just the tentative id and LINE_STRING (guide type dropped) |

## Left out

- React plumbing is not modelled: `componentDidMount`, `componentWillUnmount`, `render`, `_render`, `MapContext` and the zero-size-viewport check. Only the mode-change branch of `componentDidUpdate` is modelled, as `ReceiveProps`.
- The viewport is not modelled. `project`, `unproject` and `_getEvent` use floating-point viewport math and helpers not part of this model (`parseEventElement`, `getScreenCoords`). Events arrive already normalized, with map coordinates given.
- Event-manager side effects are not modelled: `eventManager.on/off` beyond counting calls, `stopImmediatePropagation`, click suppression and `_onPan`. They only affect DOM propagation.
- Screen coordinates are exact reals. `ExceedsDragThreshold` compares `dx * dx + dy * dy` with 5 exactly, so the IEEE double rounding of the source's test, which can matter within about one ulp of the boundary, is not modelled.
- The `memoize` cache is a performance detail. `_getMemorizedFeatureCollection` is the plain function of its inputs.
- `uuid()` is not modelled. The fresh id is a method parameter.
- The other edit modes and the internals of `ImmutableFeatureCollection` live in a package that is not part of this model. The controller's mode is an abstract call log. `addFeatures` is append and `deleteFeatures` is removal of the named positions.
- `getFeatureCoordinates`, `getEditHandlesFromFeature`, `getSelectedFeature` and `isNumeric` live in files not part of this model. The first three are stand-ins. `isNumeric` is folded into `Option<int>`, where `None` stands for every non-numeric value.
- The geometry is simplified. Polygon rings and nested coordinates are not modelled: every geometry has one flat coordinate sequence. The property bag holds only the keys this code reads or writes.
- `modeConfig`, `viewport`, `cursor`, `onUpdateCursor` and `onEdit` are left out of the mode props. The first four are opaque or unused here.
- The mode's `props.onEdit(...)` call back into the controller (draw-line-string-mode.ts lines 90 and 126) is not modelled. In the source it re-enters `_onEdit` in the middle of a handler, replacing `state.featureCollection` and calling the owner. Here `DrawLineStringMode` returns its action instead, and the controller's mode is a call log. So the new-state ensures of `OnClick` (the state untouched in other modes), `OnPointerMove`, `OnPointerDown` and `OnPointerUp`, and the collection part of `MoveKeepsSnapshot`, describe only the controller's own writes; a mode's edit applied by `OnEdit` during the same handler is not included.
- `hasContainer` and `hasEventManager` are fixed when a `ModeHandler` is constructed. The source re-reads `this._containerRef` and `this._context.eventManager` on every register and deregister call, and `render` reassigns `_context`, so a container or event manager that appears or disappears later is not modelled.
- `getModeProps` puts a plain object in `data`, yet the drawing mode calls `data.getObject()` and `data.addFeature` on it. `data` is modelled as a feature sequence: `updatedData` is that sequence for `ADD_POSITION`, and that sequence with the feature appended for `ADD_FEATURE`.
- The JavaScript `TypeError` paths are not modelled; they become preconditions or are excluded by the types:
  - A handler with no mode instance; the handlers require one.
  - `getGuides` with no last pointer-move event while a source feature exists; it requires one then.
  - A mode name missing from `MODE_NAME_MAPPING`; mode names are a closed enumeration.
- `isDragging` can be `undefined` in the source when there is no picked object. It is modelled as `false`.
- The hover record is the event's coordinates plus the picked object. The chance that the object's own keys overwrite the coordinates during the spread is not modelled.
- Feature indexes are integers. A numeric but fractional index, which JavaScript would look up as `undefined`, is not modelled.
