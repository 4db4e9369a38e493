/**
 * Draw planning: what the point pass and the path pass put on the canvases, as a list of
 * abstract draw commands, and the redraw sequence that runs them.
 */
module Drawing {
  import opened Wrappers
  import opened Values
  import opened Symbols
  import opened Wrap
  import opened Records
  import opened Animation
  import opened Viewport

  /**
   * What the layer asks of the host map at draw time: the `toScreen` projection, the
   * longitude of the map's centre, and `Math.pow(1.05, ·)` for the ease-in animator.
   */
  datatype Host = Host(toScreen: GeoPoint -> ScreenPoint, centerLongitude: real, pow105: real -> real)

  /** `setLineDash([segment, gap])` with `lineDashOffset = offset`. */
  datatype Dash = Dash(segment: real, gap: real, offset: JsNumber)

  /** One thing painted on a canvas. */
  datatype Draw =
    | Circle(center: ScreenPoint, style: Style)
    | Curve(start: ScreenPoint, control1: ScreenPoint, control2: ScreenPoint, end: ScreenPoint,
            style: Style, dash: Option<Dash>)

  /** The draws a pass made, and whether it ran to the end without throwing. */
  datatype Pass = Pass(draws: seq<Draw>, completed: bool)

  /**
   * Painting a list of items one after the other, where an item without a symbol throws:
   * everything before the first such item is painted, nothing after it.
   */
  function Render(items: seq<Option<Draw>>): (p: Pass)
    ensures p.completed <==> forall i :: 0 <= i < |items| ==> items[i].Some?
    ensures |p.draws| <= |items|
    ensures p.completed ==> |p.draws| == |items|
    ensures forall i :: 0 <= i < |p.draws| ==> items[i] == Some(p.draws[i])
    ensures !p.completed ==> items[|p.draws|].None?
    decreases |items|
  {
    if items == [] then Pass([], true)
    else
      var prev := Render(items[..|items| - 1]);
      if !prev.completed then prev
      else
        match items[|items| - 1]
        case None => Pass(prev.draws, false)
        case Some(d) => Pass(prev.draws + [d], true)
  }

  /** Rendering one more item after a completed pass: it is drawn, or the pass stops there. */
  lemma RenderOneMore(items: seq<Option<Draw>>, item: Option<Draw>)
    requires Render(items).completed
    ensures Render(items + [item]) == match item
      case None => Pass(Render(items).draws, false)
      case Some(d) => Pass(Render(items).draws + [d], true)
  {
    assert (items + [item])[..|items|] == items;
  }

  /*** The point pass ***/

  /** The id value a record is deduplicated by: its origin id, or its destination id. */
  function EndpointKey(ids: FieldIds, r: Record): Value
  {
    if r.isOrigin then r.Attr(ids.originUniqueIdField) else r.Attr(ids.destinationUniqueIdField)
  }

  /** Two records stand for the same map point: same end, same id value. */
  predicate SameEndpoint(ids: FieldIds, a: Record, b: Record)
  {
    a.isOrigin == b.isOrigin && EndpointKey(ids, a) == EndpointKey(ids, b)
  }

  /** The `originUniqueIdValues` (or `destinationUniqueIdValues`) pushed while scanning the first `n` records. */
  function SeenKeys(ids: FieldIds, rs: seq<Record>, n: nat, isOrigin: bool): set<Value>
    requires n <= |rs|
    decreases n
  {
    if n == 0 then {}
    else
      SeenKeys(ids, rs, n - 1, isOrigin)
      + (if rs[n - 1].isOrigin == isOrigin then {EndpointKey(ids, rs[n - 1])} else {})
  }

  /** A key has been seen exactly when one of the first `n` records at that end carries it. */
  lemma {:induction false} SeenKeysAreCarried(ids: FieldIds, rs: seq<Record>, n: nat, isOrigin: bool, v: Value)
    requires n <= |rs|
    ensures v in SeenKeys(ids, rs, n, isOrigin) <==>
      exists j :: 0 <= j < n && rs[j].isOrigin == isOrigin && EndpointKey(ids, rs[j]) == v
    decreases n
  {
    if n > 0 {
      SeenKeysAreCarried(ids, rs, n - 1, isOrigin, v);
      if v in SeenKeys(ids, rs, n, isOrigin) && v !in SeenKeys(ids, rs, n - 1, isOrigin) {
        assert rs[n - 1].isOrigin == isOrigin && EndpointKey(ids, rs[n - 1]) == v;
      }
    }
  }

  /**
   * The tracking array itself: each key once, in the order its first record comes. The set
   * of keys it holds is SeenKeys (PushedKeysHoldSeenKeys).
   */
  function PushedKeys(ids: FieldIds, rs: seq<Record>, n: nat, isOrigin: bool): seq<Value>
    requires n <= |rs|
    decreases n
  {
    if n == 0 then []
    else
      var prev := PushedKeys(ids, rs, n - 1, isOrigin);
      var key := EndpointKey(ids, rs[n - 1]);
      if rs[n - 1].isOrigin == isOrigin && key !in prev then prev + [key] else prev
  }

  /** The tracking array holds a key exactly when that key has been seen at its end. */
  lemma {:induction false} PushedKeysHoldSeenKeys(ids: FieldIds, rs: seq<Record>, n: nat, isOrigin: bool, v: Value)
    requires n <= |rs|
    ensures v in PushedKeys(ids, rs, n, isOrigin) <==> v in SeenKeys(ids, rs, n, isOrigin)
    decreases n
  {
    if n > 0 {
      PushedKeysHoldSeenKeys(ids, rs, n - 1, isOrigin, v);
    }
  }

  /** Record `i` is drawn: its id value has not been seen at its end yet. */
  predicate IsNewMarker(ids: FieldIds, rs: seq<Record>, i: nat)
    requires i < |rs|
  {
    EndpointKey(ids, rs[i]) !in SeenKeys(ids, rs, i, rs[i].isOrigin)
  }

  /** No earlier record stands for the same map point. */
  predicate FirstOfEndpoint(ids: FieldIds, rs: seq<Record>, i: nat)
    requires i < |rs|
  {
    forall j :: 0 <= j < i ==> !SameEndpoint(ids, rs[j], rs[i])
  }

  /** The positions, in storage order, of the records among the first `n` that get a marker. */
  function MarkerIndices(ids: FieldIds, rs: seq<Record>, n: nat): (idx: seq<nat>)
    requires n <= |rs|
    ensures forall k :: 0 <= k < |idx| ==> idx[k] < n
    ensures forall k, l :: 0 <= k < l < |idx| ==> idx[k] < idx[l]
    decreases n
  {
    if n == 0 then []
    else MarkerIndices(ids, rs, n - 1) + (if IsNewMarker(ids, rs, n - 1) then [n - 1] else [])
  }

  /**
   * The records that get a marker are exactly those that are the first, in storage order, to
   * stand for their map point.
   */
  lemma {:induction false} MarkersAreFirsts(ids: FieldIds, rs: seq<Record>, n: nat)
    requires n <= |rs|
    ensures forall i :: 0 <= i < n ==> (i in MarkerIndices(ids, rs, n) <==> FirstOfEndpoint(ids, rs, i))
    decreases n
  {
    if n > 0 {
      MarkersAreFirsts(ids, rs, n - 1);
      NewMarkerIsFirst(ids, rs, n - 1);
      var prev := MarkerIndices(ids, rs, n - 1);
      forall i | 0 <= i < n
        ensures i in MarkerIndices(ids, rs, n) <==> FirstOfEndpoint(ids, rs, i)
      {
        if i < n - 1 {
          assert i in MarkerIndices(ids, rs, n) <==> i in prev;
        }
      }
    }
  }

  /** The `indexOf(...) === -1` test of the point pass is "first of its map point". */
  lemma NewMarkerIsFirst(ids: FieldIds, rs: seq<Record>, i: nat)
    requires i < |rs|
    ensures IsNewMarker(ids, rs, i) <==> FirstOfEndpoint(ids, rs, i)
  {
    var key, end := EndpointKey(ids, rs[i]), rs[i].isOrigin;
    SeenKeysAreCarried(ids, rs, i, end, key);
    if !FirstOfEndpoint(ids, rs, i) {
      var j :| 0 <= j < i && SameEndpoint(ids, rs[j], rs[i]);
      assert key in SeenKeys(ids, rs, i, end);
    }
  }

  /** No two markers stand for the same map point. */
  lemma MarkersDistinct(ids: FieldIds, rs: seq<Record>)
    ensures var idx := MarkerIndices(ids, rs, |rs|);
      forall k, l :: 0 <= k < l < |idx| ==> !SameEndpoint(ids, rs[idx[k]], rs[idx[l]])
  {
    var idx := MarkerIndices(ids, rs, |rs|);
    MarkersAreFirsts(ids, rs, |rs|);
    forall k, l | 0 <= k < l < |idx|
      ensures !SameEndpoint(ids, rs[idx[k]], rs[idx[l]])
    {
      assert idx[l] in idx;
      assert FirstOfEndpoint(ids, rs, idx[l]);
    }
  }

  /** Every record's map point has a marker, drawn from the first record standing for it. */
  lemma {:induction false} EveryEndpointMarked(ids: FieldIds, rs: seq<Record>, i: nat)
    requires i < |rs|
    ensures exists k :: 0 <= k <= i && k in MarkerIndices(ids, rs, |rs|) && SameEndpoint(ids, rs[k], rs[i])
    decreases i
  {
    if FirstOfEndpoint(ids, rs, i) {
      MarkersAreFirsts(ids, rs, |rs|);
      assert i in MarkerIndices(ids, rs, |rs|);
    } else {
      var j :| 0 <= j < i && SameEndpoint(ids, rs[j], rs[i]);
      EveryEndpointMarked(ids, rs, j);
    }
  }

  /** The circle configuration `_drawAllCanvasPoints` picks: by end, and by the highlight flag. */
  function PointConfig(cfg: Config, r: Record): SymbolConfig
  {
    if r.isOrigin then
      (if r.isSelectedForHighlight then cfg.originHighlightCircleProperties else cfg.originCircleProperties)
    else
      (if r.isSelectedForHighlight then cfg.destinationHighlightCircleProperties else cfg.destinationCircleProperties)
  }

  /** `_drawNewCanvasPoint`: a circle at the wrapped, projected geometry, or a throw. */
  function PointDraw(cfg: Config, r: Record, host: Host): Option<Draw>
  {
    match Resolve(PointConfig(cfg, r), r.Attributes())
    case None => None
    case Some(style) =>
      Some(Circle(host.toScreen(WrapAround(r.Geometry(), host.centerLongitude, cfg.wrapAroundCanvas)), style))
  }

  /** The points `_drawAllCanvasPoints` tries to draw for the first `n` records, in order. */
  function PointItems(cfg: Config, rs: seq<Record>, n: nat, host: Host): seq<Option<Draw>>
    requires n <= |rs|
    decreases n
  {
    if n == 0 then []
    else
      PointItems(cfg, rs, n - 1, host)
      + (if IsNewMarker(cfg.fieldIds, rs, n - 1) then [PointDraw(cfg, rs[n - 1], host)] else [])
  }

  /** The point items are the markers' circles, in storage order. */
  lemma {:induction false} PointItemsFollowMarkers(cfg: Config, rs: seq<Record>, n: nat, host: Host)
    requires n <= |rs|
    ensures var items, idx := PointItems(cfg, rs, n, host), MarkerIndices(cfg.fieldIds, rs, n);
      && |items| == |idx|
      && forall k :: 0 <= k < |idx| ==> items[k] == PointDraw(cfg, rs[idx[k]], host)
    decreases n
  {
    if n > 0 {
      PointItemsFollowMarkers(cfg, rs, n - 1, host);
      var prevItems, prevIdx := PointItems(cfg, rs, n - 1, host), MarkerIndices(cfg.fieldIds, rs, n - 1);
      if IsNewMarker(cfg.fieldIds, rs, n - 1) {
        var items, idx := PointItems(cfg, rs, n, host), MarkerIndices(cfg.fieldIds, rs, n);
        assert items == prevItems + [PointDraw(cfg, rs[n - 1], host)];
        assert idx == prevIdx + [n - 1];
        forall k | 0 <= k < |idx|
          ensures items[k] == PointDraw(cfg, rs[idx[k]], host)
        {
          if k < |prevIdx| {
            assert items[k] == prevItems[k] && idx[k] == prevIdx[k];
          }
        }
      }
    }
  }

  /** `_drawAllCanvasPoints`. */
  function PointPass(cfg: Config, rs: seq<Record>, host: Host): Pass
  {
    Render(PointItems(cfg, rs, |rs|, host))
  }

  /**
   * What the point pass paints: one circle per marker, in storage order, each in the style of
   * that record's circle configuration (the highlight one when the record is highlighted);
   * a pass that stops does so at the first marker whose symbol cannot be resolved.
   */
  lemma PointPassPaintsMarkers(cfg: Config, rs: seq<Record>, host: Host)
    ensures var p, idx := PointPass(cfg, rs, host), MarkerIndices(cfg.fieldIds, rs, |rs|);
      && (p.completed <==> forall k :: 0 <= k < |idx| ==> Resolve(PointConfig(cfg, rs[idx[k]]), rs[idx[k]].Attributes()).Some?)
      && |p.draws| <= |idx|
      && (p.completed ==> |p.draws| == |idx|)
      && (!p.completed ==>
            |p.draws| < |idx| && Resolve(PointConfig(cfg, rs[idx[|p.draws|]]), rs[idx[|p.draws|]].Attributes()).None?)
      && forall k :: 0 <= k < |p.draws| ==>
           var r := rs[idx[k]];
           && p.draws[k].Circle?
           && p.draws[k].center == host.toScreen(WrapAround(r.Geometry(), host.centerLongitude, cfg.wrapAroundCanvas))
           && Resolve(PointConfig(cfg, r), r.Attributes()) == Some(p.draws[k].style)
  {
    PointItemsFollowMarkers(cfg, rs, |rs|, host);
  }

  /*** The path pass ***/

  /** The positions of the records selected for path display, among the first `n`. */
  function PathIndices(rs: seq<Record>, n: nat): (idx: seq<nat>)
    requires n <= |rs|
    ensures forall k :: 0 <= k < |idx| ==> idx[k] < n
    ensures forall k, l :: 0 <= k < l < |idx| ==> idx[k] < idx[l]
    ensures forall i :: 0 <= i < n ==> (i in idx <==> rs[i].isSelectedForPathDisplay)
    decreases n
  {
    if n == 0 then []
    else PathIndices(rs, n - 1) + (if rs[n - 1].isSelectedForPathDisplay then [n - 1] else [])
  }

  /**
   * The curve `_applyCanvasLineSymbol` adds from `o` to `d`: both control points sit on the
   * destination's row, the first one in the origin's column.
   */
  function Bezier(o: ScreenPoint, d: ScreenPoint, style: Style, dash: Option<Dash>): Draw
  {
    Curve(o, ScreenPoint(o.x, d.y), ScreenPoint(d.x, d.y), d, style, dash)
  }

  /** The point at parameter `t` of a cubic Bézier with these four points. */
  function CubicAt(p0: real, p1: real, p2: real, p3: real, t: real): real
  {
    var u := 1.0 - t;
    u * u * u * p0 + 3.0 * u * u * t * p1 + 3.0 * u * t * t * p2 + t * t * t * p3
  }

  /**
   * The drawn curve starts at the origin and ends at the destination, and its height at every
   * parameter is a blend of the two ends' heights weighted by (1 - t)^3.
   */
  lemma BezierRunsFromOriginToDestination(o: ScreenPoint, d: ScreenPoint, style: Style, dash: Option<Dash>, t: real)
    ensures var c := Bezier(o, d, style, dash);
      && CubicAt(c.start.x, c.control1.x, c.control2.x, c.end.x, 0.0) == o.x
      && CubicAt(c.start.y, c.control1.y, c.control2.y, c.end.y, 0.0) == o.y
      && CubicAt(c.start.x, c.control1.x, c.control2.x, c.end.x, 1.0) == d.x
      && CubicAt(c.start.y, c.control1.y, c.control2.y, c.end.y, 1.0) == d.y
      && var w := (1.0 - t) * (1.0 - t) * (1.0 - t);
         CubicAt(c.start.y, c.control1.y, c.control2.y, c.end.y, t) == w * o.y + (1.0 - w) * d.y
  {
    var u := 1.0 - t;
    assert u * u * u + 3.0 * u * u * t + 3.0 * u * t * t + t * t * t == 1.0 by {
      assert u + t == 1.0;
      assert (u + t) * (u + t) * (u + t) == u * u * u + 3.0 * u * u * t + 3.0 * u * t * t + t * t * t;
    }
  }

  /** The two ends of a record's flow, both in the spatial reference of the record's own geometry. */
  function PathEnds(r: Record): (GeoPoint, GeoPoint)
  {
    (r.origin.(wkid := r.Geometry().wkid), r.destination.(wkid := r.Geometry().wkid))
  }

  /** `_drawNewCanvasPath`: a curve between the wrapped, projected ends, or a throw. */
  function PathDraw(symbols: SymbolConfig, wrap: bool, r: Record, host: Host, dash: Option<Dash>): Option<Draw>
  {
    match Resolve(symbols, r.Attributes())
    case None => None
    case Some(style) =>
      var (o, d) := PathEnds(r);
      Some(Bezier(host.toScreen(WrapAround(o, host.centerLongitude, wrap)),
                  host.toScreen(WrapAround(d, host.centerLongitude, wrap)),
                  style, dash))
  }

  /** The curves `_drawSelectedCanvasPaths` tries to add for the first `n` records, in order. */
  function PathItems(symbols: SymbolConfig, wrap: bool, rs: seq<Record>, n: nat, host: Host, dash: Option<Dash>): seq<Option<Draw>>
    requires n <= |rs|
    decreases n
  {
    if n == 0 then []
    else
      PathItems(symbols, wrap, rs, n - 1, host, dash)
      + (if rs[n - 1].isSelectedForPathDisplay then [PathDraw(symbols, wrap, rs[n - 1], host, dash)] else [])
  }

  /** The path items are the selected records' curves, in storage order. */
  lemma {:induction false} PathItemsFollowSelection(symbols: SymbolConfig, wrap: bool, rs: seq<Record>, n: nat, host: Host, dash: Option<Dash>)
    requires n <= |rs|
    ensures var items, idx := PathItems(symbols, wrap, rs, n, host, dash), PathIndices(rs, n);
      && |items| == |idx|
      && forall k :: 0 <= k < |idx| ==> items[k] == PathDraw(symbols, wrap, rs[idx[k]], host, dash)
    decreases n
  {
    if n > 0 {
      PathItemsFollowSelection(symbols, wrap, rs, n - 1, host, dash);
    }
  }

  /**
   * `_drawSelectedCanvasPaths`: every curve joins one open path that is stroked once at the
   * end, so a throw part-way paints no path at all.
   */
  function PathPass(symbols: SymbolConfig, wrap: bool, rs: seq<Record>, host: Host, dash: Option<Dash>): Pass
  {
    var p := Render(PathItems(symbols, wrap, rs, |rs|, host, dash));
    if p.completed then Pass(Stroke(p.draws), true) else Pass([], false)
  }

  /**
   * The closing `ctx.stroke()`: the curves added to the open path are painted together, in
   * the line style (cap, width, colour, shadow) the last of them set.
   */
  function Stroke(curves: seq<Draw>): (r: seq<Draw>)
    ensures |r| == |curves|
    ensures forall k :: 0 <= k < |r| ==> r[k] == Restyle(curves[k], curves[|curves| - 1].style)
  {
    if curves == [] then []
    else seq(|curves|, k requires 0 <= k < |curves| => Restyle(curves[k], curves[|curves| - 1].style))
  }

  /** The same shape, painted in another style. */
  function Restyle(d: Draw, style: Style): Draw
  {
    match d
    case Circle(center, _) => Circle(center, style)
    case Curve(start, control1, control2, end, _, dash) => Curve(start, control1, control2, end, style, dash)
  }

  /** Before the stroke: the curves of the selected records, in storage order, each in its own style. */
  lemma PathCurvesBeforeStroke(symbols: SymbolConfig, wrap: bool, rs: seq<Record>, host: Host, dash: Option<Dash>)
    ensures var q, idx := Render(PathItems(symbols, wrap, rs, |rs|, host, dash)), PathIndices(rs, |rs|);
      && (q.completed <==> forall k :: 0 <= k < |idx| ==> Resolve(symbols, rs[idx[k]].Attributes()).Some?)
      && (q.completed ==>
            && |q.draws| == |idx|
            && forall k :: 0 <= k < |idx| ==> Some(q.draws[k]) == PathDraw(symbols, wrap, rs[idx[k]], host, dash))
  {
    PathItemsFollowSelection(symbols, wrap, rs, |rs|, host, dash);
  }

  /**
   * What the path pass paints: nothing unless every selected record has a symbol, and then
   * exactly one curve per selected record.
   */
  lemma PathPassPaintsSelection(symbols: SymbolConfig, wrap: bool, rs: seq<Record>, host: Host, dash: Option<Dash>)
    ensures var p, idx := PathPass(symbols, wrap, rs, host, dash), PathIndices(rs, |rs|);
      && (p.completed <==> forall k :: 0 <= k < |idx| ==> Resolve(symbols, rs[idx[k]].Attributes()).Some?)
      && (!p.completed ==> p.draws == [])
      && (p.completed ==> |p.draws| == |idx|)
  {
    PathCurvesBeforeStroke(symbols, wrap, rs, host, dash);
  }

  /**
   * The curves of a completed path pass, in storage order: the k-th is the k-th selected
   * record's curve, painted in the style resolved for the last selected record.
   */
  lemma PathPassInLastStyle(symbols: SymbolConfig, wrap: bool, rs: seq<Record>, host: Host, dash: Option<Dash>)
    requires PathPass(symbols, wrap, rs, host, dash).completed
    requires PathIndices(rs, |rs|) != []
    ensures var p, idx := PathPass(symbols, wrap, rs, host, dash), PathIndices(rs, |rs|);
      var last := Resolve(symbols, rs[idx[|idx| - 1]].Attributes());
      && last.Some?
      && |p.draws| == |idx|
      && forall k :: 0 <= k < |idx| ==>
           var c := PathDraw(symbols, wrap, rs[idx[k]], host, dash);
           c.Some? && p.draws[k] == Restyle(c.value, last.value)
  {
    PathCurvesBeforeStroke(symbols, wrap, rs, host, dash);
    var p, idx := PathPass(symbols, wrap, rs, host, dash), PathIndices(rs, |rs|);
    var q := Render(PathItems(symbols, wrap, rs, |rs|, host, dash));
    var n := |idx| - 1;
    var last := Resolve(symbols, rs[idx[n]].Attributes());
    assert Some(q.draws[n]) == PathDraw(symbols, wrap, rs[idx[n]], host, dash);
    PathDrawStyle(symbols, wrap, rs[idx[n]], host, dash);
    assert last == Some(q.draws[n].style);
    forall k | 0 <= k < |idx|
      ensures var c := PathDraw(symbols, wrap, rs[idx[k]], host, dash);
        c.Some? && p.draws[k] == Restyle(c.value, last.value)
    {
      assert Some(q.draws[k]) == PathDraw(symbols, wrap, rs[idx[k]], host, dash);
      assert p.draws[k] == Restyle(q.draws[k], q.draws[n].style);
    }
  }

  /** A record's curve exists exactly when its symbol resolves, and is drawn in that symbol. */
  lemma PathDrawStyle(symbols: SymbolConfig, wrap: bool, r: Record, host: Host, dash: Option<Dash>)
    ensures PathDraw(symbols, wrap, r, host, dash).Some? <==> Resolve(symbols, r.Attributes()).Some?
    ensures PathDraw(symbols, wrap, r, host, dash).Some? ==>
      PathDraw(symbols, wrap, r, host, dash).value.style == Resolve(symbols, r.Attributes()).value
  {
  }

  /** Every draw of a path pass is a curve carrying the pass's dash. */
  lemma PathPassDrawsCurves(symbols: SymbolConfig, wrap: bool, rs: seq<Record>, host: Host, dash: Option<Dash>)
    ensures var p := PathPass(symbols, wrap, rs, host, dash);
      forall k :: 0 <= k < |p.draws| ==> p.draws[k].Curve? && p.draws[k].dash == dash
  {
    PathCurvesBeforeStroke(symbols, wrap, rs, host, dash);
  }

  /*** Redraw ***/

  /**
   * Everything a redraw touches: the base (static) canvas, the animation canvas, the pan
   * state, the animation state and whether an animation frame is scheduled.
   */
  datatype View = View(
    baseCanvas: seq<Draw>,
    animationCanvas: seq<Draw>,
    pan: PanState,
    anim: AnimState,
    framePending: bool)

  /** The view after an operation, and whether the operation ran to the end without throwing. */
  datatype Outcome = Outcome(view: View, completed: bool)

  /** `_clearCanvas`: both canvases emptied and put back at the corner, any scheduled frame cancelled. */
  function ClearView(v: View): View
  {
    v.(baseCanvas := [], animationCanvas := [], pan := Cleared, framePending := false)
  }

  /** The moving dash: `[size, size + _resetOffset]`, offset by `-_offset`. */
  function AnimationDash(cfg: Config, offset: JsNumber): Option<Dash>
  {
    Some(Dash(cfg.lineDashOffsetSize, cfg.lineDashOffsetSize + ResetOffset, Negate(offset)))
  }

  /**
   * `_animator`: advance the animation state, repaint the animation canvas with dashed paths,
   * and schedule the next frame unless the paths threw.
   */
  function Frame(cfg: Config, rs: seq<Record>, style: string, v: View, host: Host): (o: Outcome)
    requires IncrementerOk(v.anim.incrementer)
    ensures IncrementerOk(o.view.anim.incrementer)
  {
    var anim := Step(style, v.anim, host.pow105);
    var paths := PathPass(cfg.animatePathProperties, cfg.wrapAroundCanvas, rs, host, AnimationDash(cfg, anim.offset));
    Outcome(v.(anim := anim, animationCanvas := paths.draws, framePending := paths.completed), paths.completed)
  }

  /**
   * The repaint `_redrawCanvas` does on a visible layer before it starts the animator: clear,
   * draw the points, draw the paths, cancel any frame. A throw stops the sequence where it happens.
   */
  function Repaint(cfg: Config, rs: seq<Record>, v: View, host: Host): (o: Outcome)
    ensures o.view.anim == v.anim && o.view.pan == Cleared && !o.view.framePending
    ensures o.view.animationCanvas == []
  {
    var cleared := ClearView(v);
    var points := PointPass(cfg, rs, host);
    if !points.completed then Outcome(cleared.(baseCanvas := points.draws), false)
    else
      var paths := PathPass(cfg.pathProperties, cfg.wrapAroundCanvas, rs, host, None);
      if !paths.completed then Outcome(cleared.(baseCanvas := points.draws), false)
      else Outcome(cleared.(baseCanvas := points.draws + paths.draws), true)
  }

  /** `_redrawCanvas` on a visible layer: the repaint, then the animator when the animation is playing. */
  function Redraw(cfg: Config, rs: seq<Record>, started: bool, style: string, v: View, host: Host): (o: Outcome)
    requires IncrementerOk(v.anim.incrementer)
    ensures IncrementerOk(o.view.anim.incrementer)
  {
    var base := Repaint(cfg, rs, v, host);
    if base.completed && started then Frame(cfg, rs, style, base.view, host) else base
  }

  /**
   * A redraw always leaves the canvases at the corner with no pan delta; with the animation
   * stopped it leaves the animation canvas empty, no frame scheduled and the animation state alone.
   */
  lemma RedrawResets(cfg: Config, rs: seq<Record>, started: bool, style: string, v: View, host: Host)
    requires IncrementerOk(v.anim.incrementer)
    ensures var o := Redraw(cfg, rs, started, style, v, host);
      && o.view.pan == Cleared
      && (!started ==> o.view.animationCanvas == [] && !o.view.framePending && o.view.anim == v.anim)
      && (o.completed ==> started == o.view.framePending)
  {
  }

  /** A redraw that completes ran both passes to the end and left their draws on the base canvas. */
  lemma RedrawBase(cfg: Config, rs: seq<Record>, started: bool, style: string, v: View, host: Host)
    requires IncrementerOk(v.anim.incrementer)
    requires Redraw(cfg, rs, started, style, v, host).completed
    ensures var points, paths := PointPass(cfg, rs, host), PathPass(cfg.pathProperties, cfg.wrapAroundCanvas, rs, host, None);
      && points.completed && paths.completed
      && Redraw(cfg, rs, started, style, v, host).view.baseCanvas == points.draws + paths.draws
  {
  }

  /**
   * The base canvas after a redraw that completes holds the markers' circles followed by one
   * curve per record selected for path display.
   */
  lemma RedrawPaintsPointsThenPaths(cfg: Config, rs: seq<Record>, started: bool, style: string, v: View, host: Host)
    requires IncrementerOk(v.anim.incrementer)
    requires Redraw(cfg, rs, started, style, v, host).completed
    ensures var base := Redraw(cfg, rs, started, style, v, host).view.baseCanvas;
      var markers, selected := MarkerIndices(cfg.fieldIds, rs, |rs|), PathIndices(rs, |rs|);
      && |base| == |markers| + |selected|
      && (forall k :: 0 <= k < |markers| ==> base[k].Circle?)
      && (forall k :: |markers| <= k < |base| ==> base[k].Curve? && base[k].dash.None?)
  {
    var points := PointPass(cfg, rs, host);
    var paths := PathPass(cfg.pathProperties, cfg.wrapAroundCanvas, rs, host, None);
    RedrawBase(cfg, rs, started, style, v, host);
    PointPassPaintsMarkers(cfg, rs, host);
    PathCurvesBeforeStroke(cfg.pathProperties, cfg.wrapAroundCanvas, rs, host, None);
    PathPassDrawsCurves(cfg.pathProperties, cfg.wrapAroundCanvas, rs, host, None);
    assert |points.draws| == |MarkerIndices(cfg.fieldIds, rs, |rs|)| by {
      PointItemsFollowMarkers(cfg, rs, |rs|, host);
    }
  }

  /*** The shared-origin scenario ***/

  /** Two `esri.Graphic`s with the same origin id and different destination ids. */
  predicate SharedOriginPair(cfg: Config, a: InputGraphic, b: InputGraphic)
  {
    var ids := cfg.fieldIds;
    && IsEsriGraphic(a) && IsEsriGraphic(b)
    && InputsReadable(cfg, [a, b])
    && !MixedInField(ids.originUniqueIdField) && !MixedInField(ids.destinationUniqueIdField)
    && Lookup(a.attributes, ids.originUniqueIdField) == Lookup(b.attributes, ids.originUniqueIdField)
    && Lookup(a.attributes, ids.destinationUniqueIdField) != Lookup(b.attributes, ids.destinationUniqueIdField)
  }

  /** Configurations with a `simple` symbol for the circles and the static paths. */
  predicate SimpleSymbols(cfg: Config)
  {
    && cfg.originCircleProperties.Simple? && cfg.destinationCircleProperties.Simple?
    && cfg.pathProperties.Simple?
  }

  /** Adding such a pair stores origin 0, destination 0, origin 1, destination 1. */
  lemma SharedOriginPairStored(cfg: Config, a: InputGraphic, b: InputGraphic)
    requires SharedOriginPair(cfg, a, b) && SimpleSymbols(cfg)
    ensures var run := AddRun(cfg, [a, b], 2);
      && run.completed
      && run.records == [GhostRecord(cfg, a, true, 0), GhostRecord(cfg, a, false, 0),
                         GhostRecord(cfg, b, true, 1), GhostRecord(cfg, b, false, 1)]
  {
    assert AddRun(cfg, [a, b], 1).records == [GhostRecord(cfg, a, true, 0), GhostRecord(cfg, a, false, 0)];
  }

  /**
   * The pair gets one origin marker and two destination markers: records 0, 1 and 3; record 2
   * stands for the same origin as record 0.
   */
  lemma SharedOriginPairMarkers(cfg: Config, a: InputGraphic, b: InputGraphic)
    requires SharedOriginPair(cfg, a, b) && SimpleSymbols(cfg)
    ensures var rs := AddRun(cfg, [a, b], 2).records;
      && MarkerIndices(cfg.fieldIds, rs, |rs|) == [0, 1, 3]
      && rs[0].isOrigin && !rs[1].isOrigin && !rs[3].isOrigin
      && EndpointKey(cfg.fieldIds, rs[1]) != EndpointKey(cfg.fieldIds, rs[3])
  {
    SharedOriginPairStored(cfg, a, b);
    var ids := cfg.fieldIds;
    var rs := AddRun(cfg, [a, b], 2).records;
    rs[0].AttrOfInputField(ids.originUniqueIdField);
    rs[2].AttrOfInputField(ids.originUniqueIdField);
    rs[1].AttrOfInputField(ids.destinationUniqueIdField);
    rs[3].AttrOfInputField(ids.destinationUniqueIdField);
    NewMarkerIsFirst(ids, rs, 0);
    NewMarkerIsFirst(ids, rs, 1);
    NewMarkerIsFirst(ids, rs, 2);
    NewMarkerIsFirst(ids, rs, 3);
    assert SameEndpoint(ids, rs[0], rs[2]);
    assert FirstOfEndpoint(ids, rs, 3);
    assert MarkerIndices(ids, rs, 2) == [0, 1];
    assert MarkerIndices(ids, rs, 3) == [0, 1];
  }

  /**
   * With `simple` circle and path symbols and nothing highlighted, a redraw of a layer whose
   * animation is stopped paints one circle per marker, then one curve per selected record.
   */
  lemma RedrawCounts(cfg: Config, rs: seq<Record>, style: string, v: View, host: Host)
    requires SimpleSymbols(cfg)
    requires forall i :: 0 <= i < |rs| ==> !rs[i].isSelectedForHighlight
    requires IncrementerOk(v.anim.incrementer)
    ensures var o := Redraw(cfg, rs, false, style, v, host);
      var markers, selected := |MarkerIndices(cfg.fieldIds, rs, |rs|)|, |PathIndices(rs, |rs|)|;
      && o.completed
      && |o.view.baseCanvas| == markers + selected
      && (forall k :: 0 <= k < markers ==> o.view.baseCanvas[k].Circle?)
      && (forall k :: markers <= k < markers + selected ==> o.view.baseCanvas[k].Curve?)
  {
    RedrawCompletesWithSimpleSymbols(cfg, rs, style, v, host);
    RedrawPaintsPointsThenPaths(cfg, rs, false, style, v, host);
  }

  /** What a redraw of the pair needs to know: nothing highlighted, and which records are drawn. */
  lemma SharedOriginPairLayout(cfg: Config, a: InputGraphic, b: InputGraphic)
    requires SharedOriginPair(cfg, a, b) && SimpleSymbols(cfg)
    ensures var rs := AddRun(cfg, [a, b], 2).records;
      && (forall i :: 0 <= i < |rs| ==> !rs[i].isSelectedForHighlight)
      && (cfg.pathDisplayMode == "all" ==> PathIndices(rs, |rs|) == [0, 2])
      && |MarkerIndices(cfg.fieldIds, rs, |rs|)| == 3
  {
    SharedOriginPairStored(cfg, a, b);
    SharedOriginPairMarkers(cfg, a, b);
    var rs := AddRun(cfg, [a, b], 2).records;
    if cfg.pathDisplayMode == "all" {
      OriginsSelected(rs);
    }
  }

  /** Four records of which only the origins, 0 and 2, are selected: paths are drawn for those two. */
  lemma OriginsSelected(rs: seq<Record>)
    requires |rs| == 4
    requires rs[0].isSelectedForPathDisplay && !rs[1].isSelectedForPathDisplay
    requires rs[2].isSelectedForPathDisplay && !rs[3].isSelectedForPathDisplay
    ensures PathIndices(rs, |rs|) == [0, 2]
  {
    assert PathIndices(rs, 2) == [0];
    assert PathIndices(rs, 3) == [0, 2];
  }

  /** The same once the path selection is cleared: no record is drawn as a path any more. */
  lemma SharedOriginPairClearedLayout(cfg: Config, a: InputGraphic, b: InputGraphic)
    requires SharedOriginPair(cfg, a, b) && SimpleSymbols(cfg)
    ensures var rs := ClearFlag(AddRun(cfg, [a, b], 2).records, PathDisplay);
      && (forall i :: 0 <= i < |rs| ==> !rs[i].isSelectedForHighlight)
      && PathIndices(rs, |rs|) == []
      && |MarkerIndices(cfg.fieldIds, rs, |rs|)| == 3
  {
    SharedOriginPairLayout(cfg, a, b);
    var stored := AddRun(cfg, [a, b], 2).records;
    ClearKeepsEndpoints(cfg.fieldIds, stored, PathDisplay);
    MarkersIgnoreSelection(cfg.fieldIds, stored, ClearFlag(stored, PathDisplay), |stored|);
  }

  /**
   * End to end: with `pathDisplayMode` "all", a redraw after adding the pair paints three
   * circles (one origin, two destinations) and then both paths.
   */
  lemma SharedOriginPairRedraw(cfg: Config, a: InputGraphic, b: InputGraphic, style: string, v: View, host: Host)
    requires SharedOriginPair(cfg, a, b) && SimpleSymbols(cfg)
    requires cfg.pathDisplayMode == "all"
    requires IncrementerOk(v.anim.incrementer)
    ensures var rs := AddRun(cfg, [a, b], 2).records;
      var o := Redraw(cfg, rs, false, style, v, host);
      && PathIndices(rs, |rs|) == [0, 2]
      && o.completed && |o.view.baseCanvas| == 5
      && (forall k :: 0 <= k < 3 ==> o.view.baseCanvas[k].Circle?)
      && (forall k :: 3 <= k < 5 ==> o.view.baseCanvas[k].Curve?)
  {
    SharedOriginPairLayout(cfg, a, b);
    RedrawCounts(cfg, AddRun(cfg, [a, b], 2).records, style, v, host);
  }

  /**
   * End to end, continued: once the path selection is cleared, a redraw paints the same three
   * circles and no path.
   */
  lemma SharedOriginPairClearedRedraw(cfg: Config, a: InputGraphic, b: InputGraphic, style: string, v: View, host: Host)
    requires SharedOriginPair(cfg, a, b) && SimpleSymbols(cfg)
    requires IncrementerOk(v.anim.incrementer)
    ensures var rs := ClearFlag(AddRun(cfg, [a, b], 2).records, PathDisplay);
      var o := Redraw(cfg, rs, false, style, v, host);
      && PathIndices(rs, |rs|) == []
      && o.completed && |o.view.baseCanvas| == 3
      && (forall k :: 0 <= k < 3 ==> o.view.baseCanvas[k].Circle?)
  {
    SharedOriginPairClearedLayout(cfg, a, b);
    RedrawCounts(cfg, ClearFlag(AddRun(cfg, [a, b], 2).records, PathDisplay), style, v, host);
  }

  /** Markers depend on the records' ends and id values only, not on their selection flags. */
  lemma {:induction false} MarkersIgnoreSelection(ids: FieldIds, rs: seq<Record>, rs': seq<Record>, n: nat)
    requires n <= |rs| == |rs'|
    requires forall i :: 0 <= i < |rs| ==>
      rs'[i].isOrigin == rs[i].isOrigin && EndpointKey(ids, rs'[i]) == EndpointKey(ids, rs[i])
    ensures MarkerIndices(ids, rs', n) == MarkerIndices(ids, rs, n)
    decreases n
  {
    if n > 0 {
      MarkersIgnoreSelection(ids, rs, rs', n - 1);
      NewMarkerIsFirst(ids, rs, n - 1);
      NewMarkerIsFirst(ids, rs', n - 1);
      assert FirstOfEndpoint(ids, rs, n - 1) <==> FirstOfEndpoint(ids, rs', n - 1);
      var isNew := IsNewMarker(ids, rs, n - 1);
      assert IsNewMarker(ids, rs', n - 1) == isNew;
      assert MarkerIndices(ids, rs, n) == MarkerIndices(ids, rs, n - 1) + (if isNew then [n - 1] else []);
      assert MarkerIndices(ids, rs', n) == MarkerIndices(ids, rs', n - 1) + (if isNew then [n - 1] else []);
    }
  }

  /** Clearing a flag keeps every record's end and id values. */
  lemma ClearKeepsEndpoints(ids: FieldIds, rs: seq<Record>, flag: Flag)
    requires !MixedInField(ids.originUniqueIdField) && !MixedInField(ids.destinationUniqueIdField)
    ensures var rs' := ClearFlag(rs, flag);
      forall i :: 0 <= i < |rs| ==>
        rs'[i].isOrigin == rs[i].isOrigin && EndpointKey(ids, rs'[i]) == EndpointKey(ids, rs[i])
  {
    var rs' := ClearFlag(rs, flag);
    forall i | 0 <= i < |rs|
      ensures rs'[i].isOrigin == rs[i].isOrigin && EndpointKey(ids, rs'[i]) == EndpointKey(ids, rs[i])
    {
      assert rs'[i].attributes == rs[i].attributes;
      rs[i].AttrOfInputField(ids.originUniqueIdField);
      rs[i].AttrOfInputField(ids.destinationUniqueIdField);
      rs'[i].AttrOfInputField(ids.originUniqueIdField);
      rs'[i].AttrOfInputField(ids.destinationUniqueIdField);
    }
  }

  /** With `simple` circle and path symbols and nothing highlighted, a redraw never throws. */
  lemma RedrawCompletesWithSimpleSymbols(cfg: Config, rs: seq<Record>, style: string, v: View, host: Host)
    requires SimpleSymbols(cfg)
    requires forall i :: 0 <= i < |rs| ==> !rs[i].isSelectedForHighlight
    requires IncrementerOk(v.anim.incrementer)
    ensures Redraw(cfg, rs, false, style, v, host).completed
  {
    PointPassPaintsMarkers(cfg, rs, host);
    PathCurvesBeforeStroke(cfg.pathProperties, cfg.wrapAroundCanvas, rs, host, None);
  }

  /*** Prefixes ***/

  /** Once an item has no symbol, what comes after it changes nothing. */
  lemma {:induction false} RenderStopsAtFailure(items: seq<Option<Draw>>, more: seq<Option<Draw>>)
    requires items <= more && !Render(items).completed
    ensures Render(more) == Render(items)
    decreases |more|
  {
    if |more| > |items| {
      assert items <= more[..|more| - 1];
      RenderStopsAtFailure(items, more[..|more| - 1]);
    } else {
      assert items == more;
    }
  }

  /** Scanning more records only adds point items at the end. */
  lemma {:induction false} PointItemsPrefix(cfg: Config, rs: seq<Record>, m: nat, n: nat, host: Host)
    requires m <= n <= |rs|
    ensures PointItems(cfg, rs, m, host) <= PointItems(cfg, rs, n, host)
    decreases n
  {
    if m < n {
      PointItemsPrefix(cfg, rs, m, n - 1, host);
    }
  }

  /** Scanning more records only adds path items at the end. */
  lemma {:induction false} PathItemsPrefix(symbols: SymbolConfig, wrap: bool, rs: seq<Record>, m: nat, n: nat, host: Host, dash: Option<Dash>)
    requires m <= n <= |rs|
    ensures PathItems(symbols, wrap, rs, m, host, dash) <= PathItems(symbols, wrap, rs, n, host, dash)
    decreases n
  {
    if m < n {
      PathItemsPrefix(symbols, wrap, rs, m, n - 1, host, dash);
    }
  }

  /** One more record in the point pass: its circle is drawn, the pass stops there, or it is skipped. */
  lemma PointPassStep(cfg: Config, rs: seq<Record>, i: nat, host: Host)
    requires i < |rs| && Render(PointItems(cfg, rs, i, host)).completed
    ensures var prev, next := Render(PointItems(cfg, rs, i, host)).draws, Render(PointItems(cfg, rs, i + 1, host));
      if !IsNewMarker(cfg.fieldIds, rs, i) then next == Pass(prev, true)
      else match PointDraw(cfg, rs[i], host)
        case None => next == Pass(prev, false)
        case Some(circle) => next == Pass(prev + [circle], true)
  {
    var items := PointItems(cfg, rs, i, host);
    if IsNewMarker(cfg.fieldIds, rs, i) {
      RenderOneMore(items, PointDraw(cfg, rs[i], host));
    } else {
      assert PointItems(cfg, rs, i + 1, host) == items;
    }
  }

  /** A point pass that stops at record `i` stops there for good. */
  lemma PointPassStops(cfg: Config, rs: seq<Record>, i: nat, host: Host)
    requires i < |rs| && !Render(PointItems(cfg, rs, i + 1, host)).completed
    ensures PointPass(cfg, rs, host) == Render(PointItems(cfg, rs, i + 1, host))
  {
    PointItemsPrefix(cfg, rs, i + 1, |rs|, host);
    RenderStopsAtFailure(PointItems(cfg, rs, i + 1, host), PointItems(cfg, rs, |rs|, host));
  }

  /** One more record in the path pass: its curve is added, the pass stops there, or it is skipped. */
  lemma PathPassStep(symbols: SymbolConfig, wrap: bool, rs: seq<Record>, i: nat, host: Host, dash: Option<Dash>)
    requires i < |rs| && Render(PathItems(symbols, wrap, rs, i, host, dash)).completed
    ensures var prev, next := Render(PathItems(symbols, wrap, rs, i, host, dash)).draws,
                              Render(PathItems(symbols, wrap, rs, i + 1, host, dash));
      if !rs[i].isSelectedForPathDisplay then next == Pass(prev, true)
      else match PathDraw(symbols, wrap, rs[i], host, dash)
        case None => next == Pass(prev, false)
        case Some(curve) => next == Pass(prev + [curve], true)
  {
    var items := PathItems(symbols, wrap, rs, i, host, dash);
    if rs[i].isSelectedForPathDisplay {
      RenderOneMore(items, PathDraw(symbols, wrap, rs[i], host, dash));
    } else {
      assert PathItems(symbols, wrap, rs, i + 1, host, dash) == items;
    }
  }

  /** A path pass that stops at record `i` strokes nothing. */
  lemma PathPassStops(symbols: SymbolConfig, wrap: bool, rs: seq<Record>, i: nat, host: Host, dash: Option<Dash>)
    requires i < |rs| && !Render(PathItems(symbols, wrap, rs, i + 1, host, dash)).completed
    ensures PathPass(symbols, wrap, rs, host, dash) == Pass([], false)
  {
    PathItemsPrefix(symbols, wrap, rs, i + 1, |rs|, host, dash);
    RenderStopsAtFailure(PathItems(symbols, wrap, rs, i + 1, host, dash), PathItems(symbols, wrap, rs, |rs|, host, dash));
  }
}
