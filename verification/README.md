# Canvas flow-line layer, modelled in Dafny

This project models the bookkeeping core of `CanvasFlowlineLayer`, an Esri map layer that
draws origin→destination flow lines on two stacked HTML canvases. The layer keeps a list of
"ghost" graphics, two per input flow: an origin point and a destination point. Each ghost
carries two selection flags, one for path display and one for highlight. From that list the
layer paints one circle per distinct origin or destination and one Bézier curve per flow
selected for path display. It can also animate a moving dash along the selected curves.

The model is one class, `Layer.FlowLayer`, whose fields are the layer's state:

- the stored graphics;
- visibility and the animation settings;
- `_offset` and `_incrementer`;
- the canvases' shared pixel offset and `_previousPanDelta`;
- whether an animation frame is scheduled;
- what is painted on the base and animation canvases, as lists of abstract draw commands.

Each method is proved against pure functions in the other modules:

- `Symbols` — the `simple` / `uniqueValue` / `classBreaks` symbol resolver, shared by ghost
  sizing, points and paths.
- `Wrap` — the antimeridian wrap-around corrector.
- `Records` — the ghost graphics `addGraphics` builds, the three selection modes, and the
  shared-endpoint lookup.
- `Animation` — the `linear`, `ease-out` and `ease-in` animator steps over JavaScript
  numbers, NaN included.
- `Viewport` — the pan tracker.
- `Drawing` — the point pass with its de-duplication, the path pass, and the
  `_redrawCanvas` sequence. Each pass is a list of draws, and a throw part-way is modelled
  explicitly.

The host map enters as a parameter `Host`, which carries three things:

- the `toScreen` projection;
- the longitude of the map's centre;
- `Math.pow(1.05, ·)`.

All three stay uninterpreted.

A `uniqueValue` renderer with no entry for the attribute's value has no symbol: the code
indexes `uniqueValueInfos.filter(...)[0].symbol` on an empty list and throws a `TypeError`
(src/CanvasFlowlineLayer.js:515-517, 584-586 and 680-683). That happens in all three places
the resolver is used. The model's `Resolve` returns `None` there, and every caller treats it
as a throw:

- `addGraphics` stops, keeps the ghosts added so far, and does not repaint.
- The point pass keeps the circles already painted and stops.
- The path pass strokes nothing, because its single `stroke()` call is never reached.
- A redraw stops where the throw happens, and an animation frame that throws schedules no
  next frame.

## Model

| member | source | states |
|---|---|---|
| Seqs.FilterIndices | src/CanvasFlowlineLayer.js:427-439 | the positions of the elements that pass the test, in range and increasing |
| Seqs.Filter | src/CanvasFlowlineLayer.js:427-439 | `Array.prototype.filter`: the elements at exactly the positions that pass the test, each once and in their original order |
| Symbols.FirstMatchIsFirst | src/CanvasFlowlineLayer.js:514-517 | the entry chosen is the first whose `value` is the attribute's value; there is none exactly when no entry has that value |
| Symbols.FirstBreakIsFirst | src/CanvasFlowlineLayer.js:519-529 | the class chosen is the first whose [classMinValue, classMaxValue] holds the value; there is none exactly when no class holds it |
| Symbols.Resolve | src/CanvasFlowlineLayer.js:512-530 | a `simple` configuration always gives its own symbol; only a `uniqueValue` configuration can fail to give one |
| Symbols.ResolveUniqueValue | src/CanvasFlowlineLayer.js:583-586 | `uniqueValue` gives the symbol of the first entry equal to the attribute, and fails (throws) exactly when no entry is equal |
| Symbols.ResolveClassBreaks | src/CanvasFlowlineLayer.js:587-598 | `classBreaks` never fails: the first class whose range holds the value, otherwise `defaultSymbol` |
| Symbols.ResolveFailsOnlyForUniqueValue | src/CanvasFlowlineLayer.js:677-696 | a failed lookup means a `uniqueValue` configuration whose entries do not include the attribute's value |
| Wrap.JsRound | src/CanvasFlowlineLayer.js:799 | `Math.round(r)` lies in (r − 0.5, r + 0.5], so halves round up |
| Wrap.WrapAround | src/CanvasFlowlineLayer.js:789-805 | with wrapping off the point is unchanged; with it on, a point within 180° of the centre is unchanged; latitude and spatial reference never change |
| Wrap.WrapLandsNearCenter | src/CanvasFlowlineLayer.js:797-800 | a wrapped longitude moves by a whole number of turns and always ends within [−180, 180] of the map centre |
| Wrap.WrapIdempotent | src/CanvasFlowlineLayer.js:789-805 | correcting twice against the same centre gives the same point as correcting once |
| Records.Record.AttrReadsAttributes | src/CanvasFlowlineLayer.js:499-504 | reading one attribute of a ghost agrees with looking it up in its merged attribute object |
| Records.Record.AttrOfInputField | src/CanvasFlowlineLayer.js:499-504 | any field other than the four mixed-in ones reads the input graphic's own value |
| Records.NatToStringInjective | src/CanvasFlowlineLayer.js:234 | two positions with the same decimal string are the same position |
| Records.GhostIdInjective | src/CanvasFlowlineLayer.js:234-238 | a ghost id `<i>_o` / `<i>_d` determines both the position and the end |
| Records.GhostRecord | src/CanvasFlowlineLayer.js:481-504 | a ghost keeps the input's attributes and gets its id; highlight is false; path display is true exactly for an origin when `pathDisplayMode` is "all" |
| Records.InputGhosts | src/CanvasFlowlineLayer.js:229-240 | one input adds at most two ghosts; when it does not throw, two for an `esri.Graphic` and none for anything else |
| Records.AddRunStep | src/CanvasFlowlineLayer.js:229-241 | one more input appends what that input adds, as long as nothing has thrown yet |
| Records.InputGhostsCompletes | src/CanvasFlowlineLayer.js:230-239 | an input passes without a throw exactly when it is not an `esri.Graphic` or both its ghosts can be sized, and then it adds its origin ghost followed by its destination ghost |
| Records.EsriIndices | src/CanvasFlowlineLayer.js:230 | the positions of the `esri.Graphic` inputs: in range, increasing, and every such input is listed |
| Records.AddRunCompletes | src/CanvasFlowlineLayer.js:228-241 | `addGraphics` runs to the end exactly when both ghosts of every `esri.Graphic` can be sized |
| Records.AddRunAppendsGhostPairs | src/CanvasFlowlineLayer.js:228-241 | when it runs to the end, it has appended exactly one origin and destination pair per `esri.Graphic`, in input order |
| Records.AddRunStops | src/CanvasFlowlineLayer.js:229-241 | after a ghost throws, later inputs add nothing |
| Records.GhostPairsLayout | src/CanvasFlowlineLayer.js:229-239 | entries 2k and 2k+1 are the origin and destination of the k-th `esri.Graphic`, with ids made from its position in the whole input array, so skipped inputs still use up an index |
| Records.GhostPairId | src/CanvasFlowlineLayer.js:234-238 | entry a's id names input EsriIndices[a/2], as an origin when a is even |
| Records.GhostIdsDistinct | src/CanvasFlowlineLayer.js:234-238 | within one call no two ghosts share an id |
| Records.IdsCollideAcrossCalls | src/CanvasFlowlineLayer.js:229-238 | the index restarts on every call: in any two calls that run to the end, the ghosts at the same position a get the same id whenever their `esri.Graphic`s sit at the same position of their own input arrays |
| Records.IdsCollideExample | src/CanvasFlowlineLayer.js:229-238 | an instance: the first origins of two separate one-graphic calls both get the id "0_o" |
| Records.WithFlag | src/CanvasFlowlineLayer.js:457 | the named flag takes the given value |
| Records.UniqueIds | src/CanvasFlowlineLayer.js:450-452 | the selection's ids, one per selected graphic and in the same order |
| Records.Select | src/CanvasFlowlineLayer.js:449-479 | NEW leaves the flag true exactly on selected ids; ADD only raises it on selected ids; SUBTRACT only lowers it on selected ids; nothing else of any record changes; an unknown mode changes nothing |
| Records.ClearFlag | src/CanvasFlowlineLayer.js:180-194 | every record with the flag lowered and nothing else changed |
| Records.SelectionModesExample | src/CanvasFlowlineLayer.js:454-473 | ids 1, 2, 3 all selected: NEW {2,3} gives (F,T,T), then ADD {1} gives (T,T,T), then SUBTRACT {2} gives (T,F,T) |
| Records.ClearIsEmptyNewSelection | src/CanvasFlowlineLayer.js:180-194 | clearing a flag is the same as a NEW selection of nothing |
| Records.SelectLeavesOtherFlag | src/CanvasFlowlineLayer.js:449-479 | selecting on one flag never changes the other flag of any record |
| Records.GetShared | src/CanvasFlowlineLayer.js:417-447 | the graphic's end decides which list is filled; for an origin, the origin list is exactly the origins with its origin id, each once and in storage order, and the destination list is empty; for a destination, the destination list is exactly the origins with its destination id, each once and in storage order, and the origin list is empty |
| Records.GetSharedMembers | src/CanvasFlowlineLayer.js:417-447 | a graphic is in the filled list exactly when it is a stored origin whose value of the test graphic's id field equals the test graphic's |
| Records.FirstEndpoint | src/CanvasFlowlineLayer.js:210-213 | the first stored graphic of the requested end whose field holds the value, and none exactly when no graphic of that end holds it |
| Records.ByIdSelection | src/CanvasFlowlineLayer.js:200-215 | a field that is neither unique-id field is rejected; with no graphic of that end and id value the lookup throws; otherwise it selects the shared graphics of the first such graphic |
| Animation.InitialIncrementer | src/CanvasFlowlineLayer.js:124-132 | `ease-out` and `ease-in` start from a positive incrementer; any other style leaves it undefined |
| Animation.LinearStep | src/CanvasFlowlineLayer.js:759-763 | the linear step adds exactly 1 to a finite offset and leaves the incrementer alone |
| Animation.NextEaseOutIncrementer | src/CanvasFlowlineLayer.js:768 | the updated ease-out incrementer is positive, so `0.9 / incrementer` is defined |
| Animation.EaseOutStep | src/CanvasFlowlineLayer.js:765-775 | the ease-out step keeps the incrementer NaN or positive |
| Animation.NextEaseInIncrementer | src/CanvasFlowlineLayer.js:780 | the ease-in incrementer stays NaN or positive, and is NaN exactly when it was |
| Animation.EaseInStep | src/CanvasFlowlineLayer.js:777-787 | the ease-in step keeps the incrementer NaN or positive |
| Animation.Step | src/CanvasFlowlineLayer.js:746-757 | every style keeps the incrementer NaN or positive |
| Animation.UnknownStyleKeepsState | src/CanvasFlowlineLayer.js:753-756 | an unrecognised style changes neither offset nor incrementer |
| Animation.EasedResetRule | src/CanvasFlowlineLayer.js:765-787 | each eased style resets to offset 0 and its own default incrementer (0.2 / 0.1) exactly when the advanced offset exceeds 200, and otherwise keeps the advanced offset |
| Animation.OffsetStaysInRange | src/CanvasFlowlineLayer.js:746-787 | under an eased style the offset stays in [0, 200]; under `linear` it grows by exactly 1 and never resets |
| Animation.EaseOutDecelerates | src/CanvasFlowlineLayer.js:765-770 | below 1 the ease-out incrementer grows, so each advance is smaller than the last; from 1 on every advance is 0.9 |
| Animation.EaseInAccelerates | src/CanvasFlowlineLayer.js:777-781 | the ease-in incrementer never decreases, grows by 1 below 55, and stays put from 55 on |
| Animation.NaNOffsetIsPermanent | src/CanvasFlowlineLayer.js:759-787 | once the offset is NaN, no style makes it a number again |
| Animation.LinearThenEaseInFreezes | src/CanvasFlowlineLayer.js:126-132 | a layer built with `linear` and switched to `ease-in` gets a NaN offset after one frame |
| Viewport.Pan | src/CanvasFlowlineLayer.js:391-405 | a pan event moves the canvases by the delta minus the previous delta and records the delta |
| Viewport.PanKeepsAligned | src/CanvasFlowlineLayer.js:388-406 | if the canvases sat at the previous delta, after the event they sit at the new delta |
| Viewport.PanRunTracksLatestDelta | src/CanvasFlowlineLayer.js:358-406 | after any run of pan events since a clear, the canvas offset is the latest cumulative delta, or (0, 0) if there was none |
| Viewport.PanIncrementsExample | src/CanvasFlowlineLayer.js:394-402 | deltas (5,0), (12,0), (12,3) put the canvases at (5,0), (12,0), (12,3) |
| Drawing.Render | src/CanvasFlowlineLayer.js:558-575 | a pass completes exactly when every item has a symbol, and then draws all of them; otherwise it draws the items before the first without a symbol and stops there |
| Drawing.RenderOneMore | src/CanvasFlowlineLayer.js:558-575 | after a completed prefix, one more item is drawn, or the pass stops at it |
| Drawing.RenderStopsAtFailure | src/CanvasFlowlineLayer.js:558-575 | once an item throws, later items change nothing |
| Drawing.SeenKeysAreCarried | src/CanvasFlowlineLayer.js:563-570 | a key has been seen at an end exactly when an earlier record at that end carries it |
| Drawing.PushedKeysHoldSeenKeys | src/CanvasFlowlineLayer.js:549-570 | the tracking array holds exactly the keys seen so far at its end |
| Drawing.MarkerIndices | src/CanvasFlowlineLayer.js:558-575 | the records that get a marker, in range and in storage order |
| Drawing.NewMarkerIsFirst | src/CanvasFlowlineLayer.js:563-568 | the `indexOf(...) === -1` test holds exactly when no earlier record stands for the same origin or destination |
| Drawing.MarkersAreFirsts | src/CanvasFlowlineLayer.js:558-575 | a record gets a marker exactly when it is the first in storage order for its map point |
| Drawing.MarkersDistinct | src/CanvasFlowlineLayer.js:558-575 | no two markers stand for the same map point |
| Drawing.EveryEndpointMarked | src/CanvasFlowlineLayer.js:558-575 | every record's map point has a marker, drawn from the first record standing for it |
| Drawing.PointItemsFollowMarkers | src/CanvasFlowlineLayer.js:558-575 | the point pass tries exactly one circle per marker, in storage order |
| Drawing.PointPassPaintsMarkers | src/CanvasFlowlineLayer.js:558-609 | the point pass completes exactly when every marker's symbol resolves, and then paints exactly one circle per marker; otherwise it stops at the first marker whose symbol does not resolve, having painted the markers before it; the k-th circle sits at the k-th marker's wrapped, projected geometry in the style resolved from that record's circle configuration (the highlight one when the record is highlighted) |
| Drawing.PathIndices | src/CanvasFlowlineLayer.js:635-638 | exactly the records selected for path display, in storage order |
| Drawing.BezierRunsFromOriginToDestination | src/CanvasFlowlineLayer.js:721-722 | the curve with control points (ox, dy) and (dx, dy) starts at the origin and ends at the destination, and its height is a (1−t)³ blend of the two ends |
| Drawing.PathItemsFollowSelection | src/CanvasFlowlineLayer.js:635-667 | the path pass tries exactly one curve per selected record, in storage order |
| Drawing.PathPassPaintsSelection | src/CanvasFlowlineLayer.js:624-713 | the path pass completes exactly when every selected record's symbol resolves; when it throws it paints nothing, and otherwise exactly one curve per selected record |
| Drawing.Stroke | src/CanvasFlowlineLayer.js:669 | one stroke of a shared path shows every curve, in order, in the style of the last one |
| Drawing.PathCurvesBeforeStroke | src/CanvasFlowlineLayer.js:635-667 | the traced path completes exactly when every selected record's symbol resolves, and then holds, in storage order, the curve built from each selected record |
| Drawing.PathPassInLastStyle | src/CanvasFlowlineLayer.js:669-723 | when the pass completes with at least one selected record, the k-th curve is the k-th selected record's curve restyled to the symbol of the last selected record |
| Drawing.PathDrawStyle | src/CanvasFlowlineLayer.js:677-713 | a record's curve exists exactly when its path symbol resolves, and then carries that symbol |
| Drawing.PathPassDrawsCurves | src/CanvasFlowlineLayer.js:715-735 | every draw of a path pass is a curve carrying the pass's dash setting |
| Drawing.Frame | src/CanvasFlowlineLayer.js:737-744 | an animation frame keeps the incrementer NaN or positive |
| Drawing.Repaint | src/CanvasFlowlineLayer.js:370-380 | a repaint leaves the canvases at the corner, the animation canvas empty, no frame scheduled and the animation state alone |
| Drawing.Redraw | src/CanvasFlowlineLayer.js:370-386 | a redraw keeps the incrementer NaN or positive |
| Drawing.RedrawResets | src/CanvasFlowlineLayer.js:370-386 | a redraw always resets the pan state; with the animation stopped it leaves the animation canvas empty, no frame and the animation state alone; a completed redraw schedules a frame exactly when the animation is playing |
| Drawing.RedrawBase | src/CanvasFlowlineLayer.js:370-377 | a completed redraw ran both passes to the end, and the base canvas holds the point draws followed by the path draws |
| Drawing.RedrawPaintsPointsThenPaths | src/CanvasFlowlineLayer.js:370-377 | the base canvas holds one circle per marker, then one undashed curve per selected record |
| Drawing.RedrawCompletesWithSimpleSymbols | src/CanvasFlowlineLayer.js:370-377 | with `simple` circle and path symbols and nothing highlighted, a redraw never throws |
| Drawing.RedrawCounts | src/CanvasFlowlineLayer.js:370-377 | with `simple` symbols and nothing highlighted, the base canvas holds as many circles as markers, then as many curves as selected records |
| Drawing.MarkersIgnoreSelection | src/CanvasFlowlineLayer.js:558-575 | which records get markers depends only on their ends and id values, not on their selection flags |
| Drawing.ClearKeepsEndpoints | src/CanvasFlowlineLayer.js:180-194 | clearing a flag keeps every record's end and id values |
| Drawing.SharedOriginPairStored | src/CanvasFlowlineLayer.js:228-241 | two flows are stored as origin 0, destination 0, origin 1, destination 1 |
| Drawing.SharedOriginPairMarkers | src/CanvasFlowlineLayer.js:558-575 | two flows from one origin to two destinations get markers for records 0, 1 and 3 |
| Drawing.OriginsSelected | src/CanvasFlowlineLayer.js:635-638 | of four records, with only 0 and 2 selected, paths are drawn for 0 and 2 |
| Drawing.SharedOriginPairLayout | src/CanvasFlowlineLayer.js:228-241 | the pair has nothing highlighted and three markers, and with `pathDisplayMode` "all" both origins are selected |
| Drawing.SharedOriginPairClearedLayout | src/CanvasFlowlineLayer.js:180-186 | after `clearAllPathSelections` nothing is selected and there are still three markers |
| Drawing.SharedOriginPairRedraw | src/CanvasFlowlineLayer.js:228-244 | end to end: adding the pair and redrawing paints three circles and then two curves |
| Drawing.SharedOriginPairClearedRedraw | src/CanvasFlowlineLayer.js:180-186 | end to end: after clearing the path selection, a redraw paints the three circles and no curve |
| Layer.OrString | src/CanvasFlowlineLayer.js:103-109 | `option \|\| fallback` on strings: a missing or empty string falls back |
| Layer.Configure | src/CanvasFlowlineLayer.js:23-123 | the field ids are taken as given; each of the four circle options, the path option and the animated-path option is used when given and otherwise takes its default; `pathDisplayMode` is the given string unless it is missing or empty, then "all"; `wrapAroundCanvas` is the given flag, true by default; the dash size is the animated path symbol's, 4 by default |
| Layer.FlowLayer.constructor | src/CanvasFlowlineLayer.js:18-133 | a new layer holds no graphics, offset 0, the style's initial incrementer, clean canvases and no frame |
| Layer.FlowLayer.ClearCanvas | src/CanvasFlowlineLayer.js:343-368 | both canvases are emptied and moved back to the corner, the pan delta is zeroed and any frame is cancelled |
| Layer.FlowLayer.PanCanvas | src/CanvasFlowlineLayer.js:388-406 | the canvases follow the pan step and end at the reported delta; the layer invariant is kept |
| Layer.FlowLayer.NoteEndpoint | src/CanvasFlowlineLayer.js:563-570 | the record is new exactly when its id value is not yet tracked at its end; the tracking arrays grow as PushedKeys says |
| Layer.FlowLayer.VisitPoint | src/CanvasFlowlineLayer.js:558-575 | one iteration extends the point pass by this record's circle, a stop, or nothing |
| Layer.FlowLayer.CollectCanvasPoints | src/CanvasFlowlineLayer.js:549-575 | the loop produces exactly the point pass |
| Layer.FlowLayer.DrawAllCanvasPoints | src/CanvasFlowlineLayer.js:542-576 | the point pass's circles are appended to the base canvas, and the method throws when the pass does |
| Layer.FlowLayer.TraceSelectedPaths | src/CanvasFlowlineLayer.js:635-667 | the loop completes exactly when the traced path does, with the same curves; a throw leaves no curves |
| Layer.FlowLayer.BuildSelectedPaths | src/CanvasFlowlineLayer.js:633-669 | tracing and then the single stroke produce exactly the path pass |
| Layer.FlowLayer.DrawSelectedCanvasPaths | src/CanvasFlowlineLayer.js:624-671 | the path pass, static or with the moving dash, goes onto the base or the animation canvas, and the other canvas is untouched |
| Layer.FlowLayer.LinearAnimator | src/CanvasFlowlineLayer.js:759-763 | the fields take the linear step |
| Layer.FlowLayer.EaseOutAnimator | src/CanvasFlowlineLayer.js:765-775 | the fields take the ease-out step |
| Layer.FlowLayer.EaseInAnimator | src/CanvasFlowlineLayer.js:777-787 | the fields take the ease-in step |
| Layer.FlowLayer.ApplyAnimator | src/CanvasFlowlineLayer.js:746-757 | the fields take the current style's step, and the incrementer stays NaN or positive |
| Layer.FlowLayer.Animator | src/CanvasFlowlineLayer.js:737-744 | step, repaint the animated paths, and schedule the next frame only if they did not throw |
| Layer.FlowLayer.AnimationFrame | src/CanvasFlowlineLayer.js:743 | a scheduled frame runs the animator and keeps the layer invariant |
| Layer.FlowLayer.RepaintCanvas | src/CanvasFlowlineLayer.js:370-380 | clear, points, paths and frame cancel end in the state the repaint describes |
| Layer.FlowLayer.RedrawCanvas | src/CanvasFlowlineLayer.js:370-386 | a hidden layer is left alone; a visible one ends as the redraw describes; the layer invariant is restored |
| Layer.FlowLayer.SetVisibility | src/CanvasFlowlineLayer.js:263-270 | showing the layer redraws it; hiding it clears the canvases |
| Layer.FlowLayer.PlayAnimation | src/CanvasFlowlineLayer.js:246-250 | the animation is playing, a missing or empty style keeps the current one, and the layer redraws |
| Layer.FlowLayer.StopAnimation | src/CanvasFlowlineLayer.js:252-255 | the animation stops, no frame stays scheduled, and a visible layer's animation canvas is empty with offset and incrementer unchanged |
| Layer.FlowLayer.AddGhostGraphic | src/CanvasFlowlineLayer.js:234-239 | the ghost is appended exactly when its symbol can be resolved |
| Layer.FlowLayer.AddInputGhosts | src/CanvasFlowlineLayer.js:230-240 | one loop iteration appends exactly what InputGhosts gives for that input |
| Layer.FlowLayer.AddGhostGraphics | src/CanvasFlowlineLayer.js:229-241 | the loop appends exactly what AddRun gives, and throws when AddRun does |
| Layer.FlowLayer.AddGraphics | src/CanvasFlowlineLayer.js:228-244 | ghosts are appended as AddRun says; a throw leaves the canvases alone; otherwise the layer redraws |
| Layer.FlowLayer.ApplyGraphicsSelection | src/CanvasFlowlineLayer.js:449-479 | the stored graphics become `Select` of the old ones; an unknown mode does not redraw, a known one redraws |
| Layer.FlowLayer.SelectGraphicsForPathDisplay | src/CanvasFlowlineLayer.js:196-198 | selection on the path-display flag |
| Layer.FlowLayer.SelectGraphicsForHighlight | src/CanvasFlowlineLayer.js:224-226 | selection on the highlight flag |
| Layer.FlowLayer.SelectGraphicsForPathDisplayById | src/CanvasFlowlineLayer.js:200-222 | a rejected field or a missing graphic changes nothing; otherwise the shared graphics are selected for path display; a known mode on a visible layer then redraws, and otherwise the canvases and animation state are unchanged |
| Layer.FlowLayer.ClearSelections | src/CanvasFlowlineLayer.js:180-194 | every graphic's flag is lowered and the layer redraws |
| Layer.FlowLayer.ClearAllPathSelections | src/CanvasFlowlineLayer.js:180-186 | no graphic is left selected for path display, nothing else changes, and the layer redraws |
| Layer.FlowLayer.ClearAllHighlightSelections | src/CanvasFlowlineLayer.js:188-194 | no graphic is left highlighted, nothing else changes, and the layer redraws |

## Left out

- Canvas creation, resizing and DOM lookup (`_getCustomCanvasElements`, `_resizeCanvas`) are browser side effects.
- Listener wiring, pausing and resuming (`_initListeners`, `_toggleListeners`), and `_setMap` / `_unsetMap`, are event plumbing and are not modelled. Only what the visibility handler does is modelled, as `SetVisibility`. The click / mouse-over handler's lookup is `GetShared`.
- `requestAnimationFrame` / `cancelAnimationFrame` are reduced to the `framePending` flag. A frame runs only through `AnimationFrame`.
- Canvas paint properties and calls (composite operation, fill, stroke, shadow, `arc`, `stroke`) are reduced to abstract `Circle` and `Curve` draws carrying their `Style`. The curves of one path pass all go on a single path that is stroked once at the end, so every curve shows in the style the last curve set; `Stroke` and `PathPassInLastStyle` state this.
- `_applyCanvasLineSymbol` and `_animateCanvasLineSymbol` set no composite operation or fill, so a path pass inherits those from the last circle drawn on the same context. A `Curve`'s `Style` carries only the line symbol's own properties; that inheritance is not modelled.
- Ghost marker sizing with `setSize(radius * 2)` is an Esri library setter. Only whether the radius lookup throws is modelled, as `GhostSymbol`.
- Esri `Graphic`, `Point`, `SpatialReference`, `toJson` / `lang.clone`, `map.toScreen` and `geographicExtent.getCenter()` are library code that is not part of this model. The projection and the map-centre longitude come in through `Host`. `getLongitude` / `setLongitude` are taken to read and write the point's `x`.
- Animation arithmetic is over exact reals, not IEEE doubles. `Math.pow(1.05, ·)` is the uninterpreted `Host.pow105`.
- `classBreaks` comparisons coerce numbers, booleans and `null` (as 0). A string or missing attribute value counts as NaN, so it matches no class; numeric strings are not parsed.
- A renderer `type` other than the three known ones leaves the JavaScript symbol undefined. That case is not modelled: `SymbolConfig` has only three variants.
- The input's geometry attributes must be numbers (`InputsReadable`). The code reads them without a check.
- Layer.FlowLayer.constructor: requires a `simple` (or default) `animatePathProperties`, because the code reads `symbol.lineDashOffsetSize` from it, which only a `simple` configuration has. It takes the layer's initial visibility as a parameter; the Esri base class sets that visibility.
- Layer.FlowLayer.DrawAllCanvasPoints: appends the pass's circles to the base canvas in one step after the loop, not one circle per iteration. The canvas it leaves is the same, including after a throw.
- Drawing.Frame: states only that the incrementer stays NaN or positive. What a frame paints is stated by `PathPassPaintsSelection` about the path pass it runs, and `Layer.FlowLayer.Animator` ties the fields to `Frame`.
- Attribute values are compared with structural equality, which is `===` on the values `Value` represents: `undefined`, `null`, finite numbers, strings and booleans. NaN attribute values are not represented (`Num` holds a real), so ids and `uniqueValue` keys that are NaN are out of scope.
