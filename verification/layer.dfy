/**
 * The flow-line layer itself: its options and defaults, the graphics it stores, and the
 * public and listener-driven operations that change them and repaint the two canvases.
 */
module Layer {
  import opened Wrappers
  import opened Seqs
  import opened Values
  import opened Symbols
  import opened Wrap
  import opened Records
  import opened Animation
  import opened Viewport
  import opened Drawing

  /*** Options and defaults ***/

  /**
   * The constructor's `options`: the field ids are required, everything else may be left out
   * (`None`).
   */
  datatype LayerOptions = LayerOptions(
    originAndDestinationFieldIds: FieldIds,
    originCircleProperties: Option<SymbolConfig>,
    originHighlightCircleProperties: Option<SymbolConfig>,
    destinationCircleProperties: Option<SymbolConfig>,
    destinationHighlightCircleProperties: Option<SymbolConfig>,
    pathProperties: Option<SymbolConfig>,
    animatePathProperties: Option<SymbolConfig>,
    pathDisplayMode: Option<string>,
    wrapAroundCanvas: Option<bool>,
    animationStarted: Option<bool>,
    animationStyle: Option<string>)

  const DefaultOriginCircle := Simple(Style("destination-over", 5.0, "rgba(195, 255, 62, 0.60)", 1.0, "rgb(195, 255, 62)", 0.0, "", "", 0.0))
  const DefaultOriginHighlightCircle := Simple(Style("destination-over", 6.0, "rgba(195, 255, 62, 0.60)", 4.0, "rgb(207, 0, 51)", 0.0, "", "", 0.0))
  const DefaultDestinationCircle := Simple(Style("destination-over", 2.5, "rgba(17, 142, 170, 0.7)", 0.25, "rgb(17, 142, 170)", 0.0, "", "", 0.0))
  const DefaultDestinationHighlightCircle := Simple(Style("destination-over", 2.0, "rgba(17, 142, 170, 0.7)", 6.0, "rgb(255, 0, 51)", 0.0, "", "", 0.0))
  const DefaultPath := Simple(Style("", 0.0, "", 0.75, "rgba(255, 0, 51, 0.8)", 1.5, "round", "rgb(255, 0, 51)", 0.0))
  const DefaultAnimatePath := Simple(Style("", 0.0, "", 1.25, "rgb(255, 46, 88)", 2.0, "round", "rgb(255, 0, 51)", 4.0))
  const DefaultPathDisplayMode := "all"
  const DefaultAnimationStyle := EaseOut

  /** `option || fallback` for a configuration object: any object given is truthy. */
  function OrDefault<T>(option: Option<T>, fallback: T): T
  {
    if option.Some? then option.value else fallback
  }

  /** `option || fallback` for a string: a missing or empty string falls back. */
  function OrString(option: Option<string>, fallback: string): (s: string)
    ensures option.Some? && option.value != "" ==> s == option.value
    ensures option.None? || option.value == "" ==> s == fallback
  {
    if option.Some? && option.value != "" then option.value else fallback
  }

  /** The constructor reads `animatePathProperties.symbol.lineDashOffsetSize`, which only a `simple` configuration has. */
  predicate DashSizeReadable(o: LayerOptions)
  {
    o.animatePathProperties.None? || o.animatePathProperties.value.Simple?
  }

  /**
   * The configuration the constructor settles on: each option given is used, each one left out
   * takes its default (an empty `pathDisplayMode` counts as left out), `wrapAroundCanvas`
   * defaults to true, and the animation dash size comes from the animated path symbol (4 by
   * default).
   */
  function Configure(o: LayerOptions): (c: Config)
    requires DashSizeReadable(o)
    ensures c.fieldIds == o.originAndDestinationFieldIds
    ensures o.originCircleProperties.Some? ==> c.originCircleProperties == o.originCircleProperties.value
    ensures o.originCircleProperties.None? ==> c.originCircleProperties == DefaultOriginCircle
    ensures o.originHighlightCircleProperties.Some? ==> c.originHighlightCircleProperties == o.originHighlightCircleProperties.value
    ensures o.originHighlightCircleProperties.None? ==> c.originHighlightCircleProperties == DefaultOriginHighlightCircle
    ensures o.destinationCircleProperties.Some? ==> c.destinationCircleProperties == o.destinationCircleProperties.value
    ensures o.destinationCircleProperties.None? ==> c.destinationCircleProperties == DefaultDestinationCircle
    ensures o.destinationHighlightCircleProperties.Some? ==> c.destinationHighlightCircleProperties == o.destinationHighlightCircleProperties.value
    ensures o.destinationHighlightCircleProperties.None? ==> c.destinationHighlightCircleProperties == DefaultDestinationHighlightCircle
    ensures o.pathProperties.Some? ==> c.pathProperties == o.pathProperties.value
    ensures o.pathProperties.None? ==> c.pathProperties == DefaultPath
    ensures o.animatePathProperties.Some? ==> c.animatePathProperties == o.animatePathProperties.value
    ensures o.animatePathProperties.None? ==> c.animatePathProperties == DefaultAnimatePath && c.lineDashOffsetSize == 4.0
    ensures c.animatePathProperties.Simple? && c.lineDashOffsetSize == c.animatePathProperties.symbol.lineDashOffsetSize
    ensures o.pathDisplayMode.Some? && o.pathDisplayMode.value != "" ==> c.pathDisplayMode == o.pathDisplayMode.value
    ensures o.pathDisplayMode.None? || o.pathDisplayMode.value == "" ==> c.pathDisplayMode == "all"
    ensures o.wrapAroundCanvas.Some? ==> c.wrapAroundCanvas == o.wrapAroundCanvas.value
    ensures o.wrapAroundCanvas.None? ==> c.wrapAroundCanvas
  {
    var animatePath := OrDefault(o.animatePathProperties, DefaultAnimatePath);
    Config(
      o.originAndDestinationFieldIds,
      OrDefault(o.originCircleProperties, DefaultOriginCircle),
      OrDefault(o.originHighlightCircleProperties, DefaultOriginHighlightCircle),
      OrDefault(o.destinationCircleProperties, DefaultDestinationCircle),
      OrDefault(o.destinationHighlightCircleProperties, DefaultDestinationHighlightCircle),
      OrDefault(o.pathProperties, DefaultPath),
      animatePath,
      OrString(o.pathDisplayMode, DefaultPathDisplayMode),
      OrDefault(o.wrapAroundCanvas, true),
      animatePath.symbol.lineDashOffsetSize)
  }

  /** What `selectGraphicsForPathDisplayById` ended with. */
  datatype ByIdStatus =
    | RejectedField             // the field is neither unique-id field: an error is logged, nothing changes
    | Threw                     // no graphic has that end and id value: reading its attributes throws
    | Applied(completed: bool)  // the selection was applied; `completed` is false when the redraw threw

  /**
   * The layer. `baseCanvas` and `animationCanvas` stand for what is painted on the bottom and
   * top canvases, `canvasOffset` for their shared `style.left` / `style.top`, and
   * `framePending` for a scheduled, uncancelled animation frame.
   */
  class FlowLayer {
    const config: Config
    var graphics: seq<Record>
    var visible: bool
    var animationStarted: bool
    var animationStyle: string
    var offset: JsNumber
    var incrementer: JsNumber
    var canvasOffset: Pixel
    var previousPanDelta: Pixel
    var framePending: bool
    var baseCanvas: seq<Draw>
    var animationCanvas: seq<Draw>

    /**
     * The layer's invariant: the canvases sit where the latest pan delta puts them, the
     * incrementer can be divided by, and a frame is only ever scheduled while the layer is
     * visible and its animation is playing.
     */
    ghost predicate Valid()
      reads this`canvasOffset, this`previousPanDelta, this`incrementer, this`framePending
      reads this`visible, this`animationStarted
    {
      Redrawable() && (framePending ==> animationStarted)
    }

    /**
     * What a redraw needs: the invariant, except that a frame may still be scheduled for an
     * animation that has just been stopped.
     */
    ghost predicate Redrawable()
      reads this`canvasOffset, this`previousPanDelta, this`incrementer, this`framePending, this`visible
    {
      && canvasOffset == previousPanDelta
      && IncrementerOk(incrementer)
      && (framePending ==> visible)
    }

    /** Everything a redraw reads and writes besides the graphics and the settings. */
    function Snapshot(): View
      reads this`baseCanvas, this`animationCanvas, this`canvasOffset, this`previousPanDelta
      reads this`offset, this`incrementer, this`framePending
    {
      View(baseCanvas, animationCanvas, PanState(canvasOffset, previousPanDelta), AnimState(offset, incrementer), framePending)
    }

    /** `constructor(options)`; `visible` is the layer's initial visibility. */
    constructor(options: LayerOptions, visible: bool)
      requires DashSizeReadable(options)
      ensures Valid()
      ensures config == Configure(options) && graphics == [] && this.visible == visible
      ensures animationStarted == OrDefault(options.animationStarted, false)
      ensures animationStyle == OrString(options.animationStyle, DefaultAnimationStyle)
      ensures offset == Finite(0.0) && incrementer == InitialIncrementer(animationStyle)
      ensures Snapshot() == View([], [], Cleared, AnimState(Finite(0.0), InitialIncrementer(animationStyle)), false)
    {
      config := Configure(options);
      graphics := [];
      this.visible := visible;
      animationStarted := OrDefault(options.animationStarted, false);
      var style := OrString(options.animationStyle, DefaultAnimationStyle);
      animationStyle := style;
      offset := Finite(0.0);
      incrementer := InitialIncrementer(style);
      canvasOffset := Zero;
      previousPanDelta := Zero;
      framePending := false;
      baseCanvas := [];
      animationCanvas := [];
    }

    /*** Canvas maintenance ***/

    /** `_clearCanvas`, also run when a zoom starts. */
    method ClearCanvas()
      modifies this`baseCanvas, this`animationCanvas, this`canvasOffset, this`previousPanDelta, this`framePending
      ensures Snapshot() == ClearView(old(Snapshot()))
    {
      baseCanvas := [];
      animationCanvas := [];
      framePending := false;
      canvasOffset := Zero;
      previousPanDelta := Zero;
    }

    /** `_panCanvas`, run while the map is being panned. */
    method PanCanvas(delta: Pixel)
      requires Valid()
      modifies this`canvasOffset, this`previousPanDelta
      ensures Valid()
      ensures PanState(canvasOffset, previousPanDelta) == Pan(old(PanState(canvasOffset, previousPanDelta)), delta)
      ensures canvasOffset == delta
    {
      var left := canvasOffset.x + (delta.x - previousPanDelta.x);
      var top := canvasOffset.y + (delta.y - previousPanDelta.y);
      canvasOffset := Pixel(left, top);
      previousPanDelta := delta;
    }

    /**
     * The de-duplication test of `_drawAllCanvasPoints` for record `i`: the record gets a marker
     * exactly when its id value is not yet in the tracking array for its end, and then its id
     * value is pushed.
     */
    method NoteEndpoint(rs: seq<Record>, i: nat, origins: seq<Value>, destinations: seq<Value>)
      returns (isNew: bool, origins': seq<Value>, destinations': seq<Value>)
      requires i < |rs|
      requires origins == PushedKeys(config.fieldIds, rs, i, true)
      requires destinations == PushedKeys(config.fieldIds, rs, i, false)
      ensures isNew == IsNewMarker(config.fieldIds, rs, i)
      ensures origins' == PushedKeys(config.fieldIds, rs, i + 1, true)
      ensures destinations' == PushedKeys(config.fieldIds, rs, i + 1, false)
    {
      var ids, graphic := config.fieldIds, rs[i];
      PushedKeysHoldSeenKeys(ids, rs, i, graphic.isOrigin, EndpointKey(ids, graphic));
      origins', destinations', isNew := origins, destinations, false;
      if graphic.isOrigin && graphic.Attr(ids.originUniqueIdField) !in origins {
        origins' := origins + [graphic.Attr(ids.originUniqueIdField)];
        isNew := true;
      } else if !graphic.isOrigin && graphic.Attr(ids.destinationUniqueIdField) !in destinations {
        destinations' := destinations + [graphic.Attr(ids.destinationUniqueIdField)];
        isNew := true;
      }
    }

    /**
     * The `forEach` callback of `_drawAllCanvasPoints` for record `i`: the de-duplication test
     * and, for a new map point, `_drawNewCanvasPoint`'s circle, which throws without a symbol.
     */
    method VisitPoint(rs: seq<Record>, i: nat, origins: seq<Value>, destinations: seq<Value>, circles: seq<Draw>, host: Host)
      returns (completed: bool, origins': seq<Value>, destinations': seq<Value>, circles': seq<Draw>)
      requires i < |rs|
      requires origins == PushedKeys(config.fieldIds, rs, i, true)
      requires destinations == PushedKeys(config.fieldIds, rs, i, false)
      requires Render(PointItems(config, rs, i, host)) == Pass(circles, true)
      ensures origins' == PushedKeys(config.fieldIds, rs, i + 1, true)
      ensures destinations' == PushedKeys(config.fieldIds, rs, i + 1, false)
      ensures Render(PointItems(config, rs, i + 1, host)) == Pass(circles', completed)
    {
      var isNew;
      isNew, origins', destinations' := NoteEndpoint(rs, i, origins, destinations);
      PointPassStep(config, rs, i, host);
      circles', completed := circles, true;
      if isNew {
        match PointDraw(config, rs[i], host)
        case None =>
          completed := false;
        case Some(circle) =>
          circles' := circles + [circle];
      }
    }

    /** The loop of `_drawAllCanvasPoints`: each record in turn, until a circle throws. */
    method CollectCanvasPoints(rs: seq<Record>, host: Host) returns (p: Pass)
      ensures p == PointPass(config, rs, host)
    {
      var originUniqueIdValues: seq<Value> := [];
      var destinationUniqueIdValues: seq<Value> := [];
      var circles: seq<Draw> := [];
      var i := 0;
      while i < |rs|
        invariant 0 <= i <= |rs|
        invariant originUniqueIdValues == PushedKeys(config.fieldIds, rs, i, true)
        invariant destinationUniqueIdValues == PushedKeys(config.fieldIds, rs, i, false)
        invariant Render(PointItems(config, rs, i, host)) == Pass(circles, true)
      {
        var completed;
        completed, originUniqueIdValues, destinationUniqueIdValues, circles :=
          VisitPoint(rs, i, originUniqueIdValues, destinationUniqueIdValues, circles, host);
        if !completed {
          PointPassStops(config, rs, i, host);
          return Pass(circles, false);
        }
        i := i + 1;
      }
      return Pass(circles, true);
    }

    /** `_drawAllCanvasPoints`: one circle per map point, appended to the base canvas. */
    method DrawAllCanvasPoints(host: Host) returns (completed: bool)
      modifies this`baseCanvas
      ensures var p := PointPass(config, graphics, host);
        baseCanvas == old(baseCanvas) + p.draws && completed == p.completed
    {
      var p := CollectCanvasPoints(graphics, host);
      baseCanvas := baseCanvas + p.draws;
      completed := p.completed;
    }

    /**
     * The loop of `_drawSelectedCanvasPaths`: one curve per selected record, added to one open
     * path; a throw part-way leaves nothing to stroke.
     */
    method TraceSelectedPaths(symbols: SymbolConfig, dash: Option<Dash>, host: Host) returns (traced: Pass)
      ensures var q := Render(PathItems(symbols, config.wrapAroundCanvas, graphics, |graphics|, host, dash));
        && (traced.completed <==> q.completed)
        && (traced.completed ==> traced.draws == q.draws)
        && (!traced.completed ==> traced.draws == [])
    {
      var rs, wrap := graphics, config.wrapAroundCanvas;
      var path: seq<Draw> := [];
      var i := 0;
      while i < |rs|
        invariant 0 <= i <= |rs|
        invariant Render(PathItems(symbols, wrap, rs, i, host, dash)) == Pass(path, true)
      {
        var graphic := rs[i];
        PathPassStep(symbols, wrap, rs, i, host, dash);
        if graphic.isSelectedForPathDisplay {
          match PathDraw(symbols, wrap, graphic, host, dash)
          case None =>
            PathPassStops(symbols, wrap, rs, i, host, dash);
            return Pass([], false);
          case Some(curve) =>
            path := path + [curve];
        }
        i := i + 1;
      }
      return Pass(path, true);
    }

    /** `_drawSelectedCanvasPaths` up to its one `ctx.stroke()`: trace the curves, then stroke them together. */
    method BuildSelectedPaths(symbols: SymbolConfig, dash: Option<Dash>, host: Host) returns (p: Pass)
      ensures p == PathPass(symbols, config.wrapAroundCanvas, graphics, host, dash)
    {
      var traced := TraceSelectedPaths(symbols, dash, host);
      if traced.completed {
        p := Pass(Stroke(traced.draws), true);
      } else {
        p := traced;
      }
    }

    /**
     * `_drawSelectedCanvasPaths(animate)`: the selected paths stroked onto the base canvas, or
     * with the moving dash onto the animation canvas.
     */
    method DrawSelectedCanvasPaths(animate: bool, host: Host) returns (completed: bool)
      modifies this`baseCanvas, this`animationCanvas
      ensures var p := PathPass(if animate then config.animatePathProperties else config.pathProperties,
                                config.wrapAroundCanvas, graphics, host,
                                if animate then AnimationDash(config, offset) else None);
        && completed == p.completed
        && (animate ==> animationCanvas == old(animationCanvas) + p.draws && baseCanvas == old(baseCanvas))
        && (!animate ==> baseCanvas == old(baseCanvas) + p.draws && animationCanvas == old(animationCanvas))
    {
      var p: Pass;
      if animate {
        p := BuildSelectedPaths(config.animatePathProperties, AnimationDash(config, offset), host);
        animationCanvas := animationCanvas + p.draws;
      } else {
        p := BuildSelectedPaths(config.pathProperties, None, host);
        baseCanvas := baseCanvas + p.draws;
      }
      completed := p.completed;
    }

    /*** Animation ***/

    /** `_linearAnimator`. */
    method LinearAnimator()
      modifies this`offset
      ensures AnimState(offset, incrementer) == LinearStep(old(AnimState(offset, incrementer)))
    {
      offset := Plus(offset, Finite(1.0));
    }

    /** `_easeOutAnimator`. */
    method EaseOutAnimator()
      requires IncrementerOk(incrementer)
      modifies this`offset, this`incrementer
      ensures AnimState(offset, incrementer) == EaseOutStep(old(AnimState(offset, incrementer)))
    {
      var next := if Less(incrementer, 1.0) then incrementer.v + 0.009 else 1.0;
      incrementer := Finite(next);
      offset := Plus(offset, Finite(0.9 / next));
      if Greater(offset, ResetOffset) {
        offset := Finite(0.0);
        incrementer := Finite(DefaultEaseOutIncrementer);
      }
    }

    /** `_easeInAnimator`; `host.pow105` stands for `Math.pow(1.05, ·)`. */
    method EaseInAnimator(host: Host)
      requires IncrementerOk(incrementer)
      modifies this`offset, this`incrementer
      ensures AnimState(offset, incrementer) == EaseInStep(old(AnimState(offset, incrementer)), host.pow105)
    {
      incrementer := if Less(incrementer, 55.0) then Finite(incrementer.v + 1.0) else incrementer;
      offset := if incrementer.Finite? then Plus(offset, Finite(host.pow105(incrementer.v))) else NaN;
      if Greater(offset, ResetOffset) {
        offset := Finite(0.0);
        incrementer := Finite(DefaultEaseInIncrementer);
      }
    }

    /** `_applyAnimator`: advance by the current style; an unknown style leaves the state alone. */
    method ApplyAnimator(host: Host)
      requires IncrementerOk(incrementer)
      modifies this`offset, this`incrementer
      ensures AnimState(offset, incrementer) == Step(animationStyle, old(AnimState(offset, incrementer)), host.pow105)
      ensures IncrementerOk(incrementer)
    {
      if animationStyle == Linear {
        LinearAnimator();
      } else if animationStyle == EaseOut {
        EaseOutAnimator();
      } else if animationStyle == EaseIn {
        EaseInAnimator(host);
      }
    }

    /** `_animator`: advance, repaint the animated paths, and schedule the next frame. */
    method Animator(host: Host) returns (completed: bool)
      requires IncrementerOk(incrementer)
      modifies this`animationCanvas, this`offset, this`incrementer, this`framePending, this`baseCanvas
      ensures Outcome(Snapshot(), completed) == Frame(config, graphics, animationStyle, old(Snapshot()), host)
    {
      ApplyAnimator(host);
      animationCanvas := [];
      completed := DrawSelectedCanvasPaths(true, host);
      framePending := completed;
    }

    /** The scheduled frame running: the browser calls `_animator` back. */
    method AnimationFrame(host: Host) returns (completed: bool)
      requires Valid() && framePending
      modifies this`animationCanvas, this`offset, this`incrementer, this`framePending, this`baseCanvas
      ensures Valid()
      ensures Outcome(Snapshot(), completed) == Frame(config, graphics, animationStyle, old(Snapshot()).(framePending := false), host)
    {
      framePending := false;
      completed := Animator(host);
    }

    /*** Redraw ***/

    /** The repaint part of `_redrawCanvas`: clear, points, paths, and the second frame cancel. */
    method RepaintCanvas(host: Host) returns (completed: bool)
      modifies this`baseCanvas, this`animationCanvas, this`canvasOffset, this`previousPanDelta, this`framePending
      ensures Outcome(Snapshot(), completed) == Repaint(config, graphics, old(Snapshot()), host)
    {
      ghost var cleared := ClearView(Snapshot());
      ghost var points := PointPass(config, graphics, host);
      ClearCanvas();
      completed := DrawAllCanvasPoints(host);
      assert Snapshot() == cleared.(baseCanvas := points.draws);
      if !completed {
        return;
      }
      completed := DrawSelectedCanvasPaths(false, host);
      framePending := false;
    }

    /** `_redrawCanvas`, also run when a pan or zoom ends. */
    method RedrawCanvas(host: Host) returns (completed: bool)
      requires Redrawable()
      modifies this`baseCanvas, this`animationCanvas, this`canvasOffset, this`previousPanDelta
      modifies this`offset, this`incrementer, this`framePending
      ensures Valid()
      ensures visible ==> Outcome(Snapshot(), completed) == Redraw(config, graphics, animationStarted, animationStyle, old(Snapshot()), host)
      ensures !visible ==> Snapshot() == old(Snapshot()) && completed
    {
      if !visible {
        return true;
      }
      completed := RepaintCanvas(host);
      if completed && animationStarted {
        completed := Animator(host);
      }
    }

    /** The visibility-change handler: repaint when shown, clear when hidden. */
    method SetVisibility(shown: bool, host: Host) returns (completed: bool)
      requires Valid()
      modifies this`visible, this`baseCanvas, this`animationCanvas, this`canvasOffset, this`previousPanDelta
      modifies this`offset, this`incrementer, this`framePending
      ensures Valid() && visible == shown
      ensures shown ==> Outcome(Snapshot(), completed) == Redraw(config, graphics, animationStarted, animationStyle, old(Snapshot()), host)
      ensures !shown ==> Snapshot() == ClearView(old(Snapshot())) && completed
    {
      visible := shown;
      if shown {
        completed := RedrawCanvas(host);
      } else {
        ClearCanvas();
        completed := true;
      }
    }

    /** `playAnimation(animationStyle)`: a missing or empty style keeps the current one. */
    method PlayAnimation(style: Option<string>, host: Host) returns (completed: bool)
      requires Valid()
      modifies this`animationStarted, this`animationStyle
      modifies this`baseCanvas, this`animationCanvas, this`canvasOffset, this`previousPanDelta
      modifies this`offset, this`incrementer, this`framePending
      ensures Valid() && animationStarted
      ensures animationStyle == OrString(style, old(animationStyle))
      ensures visible ==> Outcome(Snapshot(), completed) == Redraw(config, graphics, true, animationStyle, old(Snapshot()), host)
      ensures !visible ==> Snapshot() == old(Snapshot())
    {
      animationStyle := OrString(style, animationStyle);
      animationStarted := true;
      completed := RedrawCanvas(host);
    }

    /** `stopAnimation`: no frame is left scheduled, and the animation canvas is left empty when visible. */
    method StopAnimation(host: Host) returns (completed: bool)
      requires Valid()
      modifies this`animationStarted
      modifies this`baseCanvas, this`animationCanvas, this`canvasOffset, this`previousPanDelta
      modifies this`offset, this`incrementer, this`framePending
      ensures Valid() && !animationStarted && !framePending
      ensures visible ==> Outcome(Snapshot(), completed) == Redraw(config, graphics, false, animationStyle, old(Snapshot()), host)
      ensures visible ==> animationCanvas == [] && AnimState(offset, incrementer) == old(AnimState(offset, incrementer))
      ensures !visible ==> Snapshot() == old(Snapshot())
    {
      animationStarted := false;
      completed := RedrawCanvas(host);
      if visible {
        RedrawResets(config, graphics, false, animationStyle, old(Snapshot()), host);
      }
    }

    /*** Graphics and selection ***/

    /**
     * `this.add(this._constructGhostGraphic(...))` for one end of the input at position
     * `index`: the ghost is added unless sizing it throws.
     */
    method AddGhostGraphic(input: InputGraphic, isOrigin: bool, index: nat) returns (added: bool)
      requires HasNumericGeometry(input.attributes, config.fieldIds)
      modifies this`graphics
      ensures var record := GhostRecord(config, input, isOrigin, index);
        && added == GhostSymbol(config, record).Some?
        && graphics == old(graphics) + (if added then [record] else [])
    {
      var record := GhostRecord(config, input, isOrigin, index);
      if GhostSymbol(config, record).None? {
        return false;
      }
      graphics := graphics + [record];
      added := true;
    }

    /** One iteration of `addGraphics`'s loop: the ghosts of the input at position `index`. */
    method AddInputGhosts(input: InputGraphic, index: nat) returns (completed: bool)
      requires IsEsriGraphic(input) ==> HasNumericGeometry(input.attributes, config.fieldIds)
      modifies this`graphics
      ensures var step := InputGhosts(config, input, index);
        graphics == old(graphics) + step.records && completed == step.completed
    {
      if !IsEsriGraphic(input) {
        return true;
      }
      completed := AddGhostGraphic(input, true, index);
      if completed {
        completed := AddGhostGraphic(input, false, index);
      }
    }

    /**
     * The loop of `addGraphics`: the ghosts of each input in turn, until one throws; a throw
     * leaves the ghosts added before it.
     */
    method AddGhostGraphics(inputs: seq<InputGraphic>) returns (completed: bool)
      requires InputsReadable(config, inputs)
      modifies this`graphics
      ensures var run := AddRun(config, inputs, |inputs|);
        graphics == old(graphics) + run.records && completed == run.completed
    {
      ghost var before := graphics;
      var i := 0;
      while i < |inputs|
        invariant 0 <= i <= |inputs|
        invariant AddRun(config, inputs, i).completed
        invariant graphics == before + AddRun(config, inputs, i).records
      {
        ghost var done := AddRun(config, inputs, i).records;
        ghost var step := InputGhosts(config, inputs[i], i);
        AddRunStep(config, inputs, i);
        var added := AddInputGhosts(inputs[i], i);
        assert graphics == before + (done + step.records) by {
          AppendAssociates(before, done, step.records);
        }
        if !added {
          AddRunStops(config, inputs, i + 1, |inputs|);
          return false;
        }
        i := i + 1;
      }
      completed := true;
    }

    /**
     * `addGraphics(inputGraphics)`: append a ghost pair per `esri.Graphic` and repaint; a
     * ghost whose symbol cannot be resolved throws, leaving the ghosts added before it and
     * no repaint.
     */
    method AddGraphics(inputs: seq<InputGraphic>, host: Host) returns (completed: bool)
      requires Valid() && InputsReadable(config, inputs)
      modifies this`graphics
      modifies this`baseCanvas, this`animationCanvas, this`canvasOffset, this`previousPanDelta
      modifies this`offset, this`incrementer, this`framePending
      ensures Valid()
      ensures var run := AddRun(config, inputs, |inputs|);
        && graphics == old(graphics) + run.records
        && (!run.completed ==> Snapshot() == old(Snapshot()) && !completed)
        && (run.completed && visible ==>
              Outcome(Snapshot(), completed) == Redraw(config, graphics, animationStarted, animationStyle, old(Snapshot()), host))
        && (run.completed && !visible ==> Snapshot() == old(Snapshot()) && completed)
    {
      completed := AddGhostGraphics(inputs);
      if completed {
        completed := RedrawCanvas(host);
      }
    }

    /**
     * `_applyGraphicsSelection`: set one flag on every graphic by the mode, then repaint; an
     * unknown mode changes nothing and does not repaint.
     */
    method ApplyGraphicsSelection(selection: seq<Record>, mode: string, flag: Flag, host: Host) returns (completed: bool)
      requires Valid()
      modifies this`graphics
      modifies this`baseCanvas, this`animationCanvas, this`canvasOffset, this`previousPanDelta
      modifies this`offset, this`incrementer, this`framePending
      ensures Valid()
      ensures graphics == Select(old(graphics), UniqueIds(selection), mode, flag)
      ensures !KnownMode(mode) ==> Snapshot() == old(Snapshot()) && completed
      ensures KnownMode(mode) && visible ==>
        Outcome(Snapshot(), completed) == Redraw(config, graphics, animationStarted, animationStyle, old(Snapshot()), host)
      ensures KnownMode(mode) && !visible ==> Snapshot() == old(Snapshot())
    {
      var selectionIds := UniqueIds(selection);
      if !KnownMode(mode) {
        return true;
      }
      var i := 0;
      while i < |graphics|
        modifies this`graphics
        invariant 0 <= i <= |graphics| == |old(graphics)|
        invariant forall k :: 0 <= k < i ==> graphics[k] == SelectOne(old(graphics)[k], selectionIds, mode, flag)
        invariant forall k :: i <= k < |graphics| ==> graphics[k] == old(graphics)[k]
      {
        var graphic := graphics[i];
        if graphic.uniqueId in selectionIds {
          graphics := graphics[i := WithFlag(graphic, flag, mode != SelectionSubtract)];
        } else if mode == SelectionNew {
          graphics := graphics[i := WithFlag(graphic, flag, false)];
        }
        i := i + 1;
      }
      completed := RedrawCanvas(host);
    }

    /** `selectGraphicsForPathDisplay`. */
    method SelectGraphicsForPathDisplay(selection: seq<Record>, mode: string, host: Host) returns (completed: bool)
      requires Valid()
      modifies this`graphics
      modifies this`baseCanvas, this`animationCanvas, this`canvasOffset, this`previousPanDelta
      modifies this`offset, this`incrementer, this`framePending
      ensures Valid()
      ensures graphics == Select(old(graphics), UniqueIds(selection), mode, PathDisplay)
      ensures !KnownMode(mode) ==> Snapshot() == old(Snapshot()) && completed
      ensures KnownMode(mode) && visible ==>
        Outcome(Snapshot(), completed) == Redraw(config, graphics, animationStarted, animationStyle, old(Snapshot()), host)
      ensures KnownMode(mode) && !visible ==> Snapshot() == old(Snapshot())
    {
      completed := ApplyGraphicsSelection(selection, mode, PathDisplay, host);
    }

    /** `selectGraphicsForHighlight`. */
    method SelectGraphicsForHighlight(selection: seq<Record>, mode: string, host: Host) returns (completed: bool)
      requires Valid()
      modifies this`graphics
      modifies this`baseCanvas, this`animationCanvas, this`canvasOffset, this`previousPanDelta
      modifies this`offset, this`incrementer, this`framePending
      ensures Valid()
      ensures graphics == Select(old(graphics), UniqueIds(selection), mode, Highlight)
      ensures !KnownMode(mode) ==> Snapshot() == old(Snapshot()) && completed
      ensures KnownMode(mode) && visible ==>
        Outcome(Snapshot(), completed) == Redraw(config, graphics, animationStarted, animationStyle, old(Snapshot()), host)
      ensures KnownMode(mode) && !visible ==> Snapshot() == old(Snapshot())
    {
      completed := ApplyGraphicsSelection(selection, mode, Highlight, host);
    }

    /**
     * `selectGraphicsForPathDisplayById`: select, for path display, the graphics sharing the
     * endpoint of the first graphic with that end and id value.
     */
    method SelectGraphicsForPathDisplayById(field: string, value: Value, isOrigin: bool, mode: string, host: Host)
      returns (status: ByIdStatus)
      requires Valid()
      modifies this`graphics
      modifies this`baseCanvas, this`animationCanvas, this`canvasOffset, this`previousPanDelta
      modifies this`offset, this`incrementer, this`framePending
      ensures Valid()
      ensures var lookup := ByIdSelection(old(graphics), config.fieldIds, field, value, isOrigin);
        && (lookup.InvalidField? <==> status.RejectedField?)
        && (lookup.NoSuchGraphic? <==> status.Threw?)
        && (!lookup.Found? ==> graphics == old(graphics) && Snapshot() == old(Snapshot()))
        && (lookup.Found? ==> status.Applied? && graphics == Select(old(graphics), UniqueIds(lookup.selection), mode, PathDisplay))
        && (lookup.Found? && KnownMode(mode) && visible ==>
              Outcome(Snapshot(), status.completed)
                == Redraw(config, graphics, animationStarted, animationStyle, old(Snapshot()), host))
        && (lookup.Found? && !KnownMode(mode) ==> status.completed)
        && (lookup.Found? && !(KnownMode(mode) && visible) ==> Snapshot() == old(Snapshot()))
    {
      match ByIdSelection(graphics, config.fieldIds, field, value, isOrigin)
      case InvalidField =>
        status := RejectedField;
      case NoSuchGraphic =>
        status := Threw;
      case Found(selection) =>
        var completed := SelectGraphicsForPathDisplay(selection, mode, host);
        status := Applied(completed);
    }

    /** Lower one flag on every graphic, then repaint. */
    method ClearSelections(flag: Flag, host: Host) returns (completed: bool)
      requires Valid()
      modifies this`graphics
      modifies this`baseCanvas, this`animationCanvas, this`canvasOffset, this`previousPanDelta
      modifies this`offset, this`incrementer, this`framePending
      ensures Valid()
      ensures graphics == ClearFlag(old(graphics), flag)
      ensures visible ==>
        Outcome(Snapshot(), completed) == Redraw(config, graphics, animationStarted, animationStyle, old(Snapshot()), host)
      ensures !visible ==> Snapshot() == old(Snapshot())
    {
      var i := 0;
      while i < |graphics|
        modifies this`graphics
        invariant 0 <= i <= |graphics| == |old(graphics)|
        invariant forall k :: 0 <= k < i ==> graphics[k] == WithFlag(old(graphics)[k], flag, false)
        invariant forall k :: i <= k < |graphics| ==> graphics[k] == old(graphics)[k]
      {
        graphics := graphics[i := WithFlag(graphics[i], flag, false)];
        i := i + 1;
      }
      completed := RedrawCanvas(host);
    }

    /** `clearAllPathSelections`. */
    method ClearAllPathSelections(host: Host) returns (completed: bool)
      requires Valid()
      modifies this`graphics
      modifies this`baseCanvas, this`animationCanvas, this`canvasOffset, this`previousPanDelta
      modifies this`offset, this`incrementer, this`framePending
      ensures Valid()
      ensures graphics == ClearFlag(old(graphics), PathDisplay)
      ensures forall i :: 0 <= i < |graphics| ==> !graphics[i].isSelectedForPathDisplay
      ensures visible ==>
        Outcome(Snapshot(), completed) == Redraw(config, graphics, animationStarted, animationStyle, old(Snapshot()), host)
      ensures !visible ==> Snapshot() == old(Snapshot())
    {
      completed := ClearSelections(PathDisplay, host);
    }

    /** `clearAllHighlightSelections`. */
    method ClearAllHighlightSelections(host: Host) returns (completed: bool)
      requires Valid()
      modifies this`graphics
      modifies this`baseCanvas, this`animationCanvas, this`canvasOffset, this`previousPanDelta
      modifies this`offset, this`incrementer, this`framePending
      ensures Valid()
      ensures graphics == ClearFlag(old(graphics), Highlight)
      ensures forall i :: 0 <= i < |graphics| ==> !graphics[i].isSelectedForHighlight
      ensures visible ==>
        Outcome(Snapshot(), completed) == Redraw(config, graphics, animationStarted, animationStyle, old(Snapshot()), host)
      ensures !visible ==> Snapshot() == old(Snapshot())
    {
      completed := ClearSelections(Highlight, host);
    }
  }
}
