/**
 * The record store and the selection model: the "ghost" graphics `addGraphics` builds, the
 * two selection flags on them, the three selection modes, and the shared-endpoint lookup.
 */
module Records {
  import opened Wrappers
  import opened Values
  import opened Seqs
  import opened Symbols
  import opened Wrap

  /** The attribute names holding one end's coordinates, and that end's spatial reference. */
  datatype GeometryFields = GeometryFields(x: string, y: string, wkid: int)

  /** `originAndDestinationFieldIds`. */
  datatype FieldIds = FieldIds(
    originUniqueIdField: string,
    destinationUniqueIdField: string,
    originGeometry: GeometryFields,
    destinationGeometry: GeometryFields)

  /** The layer's options once the constructor has filled in its defaults. */
  datatype Config = Config(
    fieldIds: FieldIds,
    originCircleProperties: SymbolConfig,
    originHighlightCircleProperties: SymbolConfig,
    destinationCircleProperties: SymbolConfig,
    destinationHighlightCircleProperties: SymbolConfig,
    pathProperties: SymbolConfig,
    animatePathProperties: SymbolConfig,
    pathDisplayMode: string,
    wrapAroundCanvas: bool,
    lineDashOffsetSize: real)

  /** The attribute names `_constructGhostGraphic` writes over the input's own. */
  predicate MixedInField(field: string)
  {
    field == "_isOrigin" || field == "_isSelectedForPathDisplay" || field == "_isSelectedForHighlight" || field == "_uniqueId"
  }

  /** A graphic handed to `addGraphics`: its `declaredClass` and its attributes. */
  datatype InputGraphic = InputGraphic(declaredClass: string, attributes: map<string, Value>)

  const EsriGraphic := "esri.Graphic"

  /**
   * One ghost graphic of the layer: the input's attributes, the origin and destination
   * coordinates read from them, and the fields `_constructGhostGraphic` mixes in.
   */
  datatype Record = Record(
    isOrigin: bool,
    uniqueId: string,
    attributes: map<string, Value>,
    origin: GeoPoint,
    destination: GeoPoint,
    isSelectedForPathDisplay: bool,
    isSelectedForHighlight: bool)
  {
    /** `graphic.attributes`: the input's attributes with the layer's own four mixed in. */
    function Attributes(): map<string, Value>
    {
      attributes
        ["_isOrigin" := Bool(isOrigin)]
        ["_isSelectedForPathDisplay" := Bool(isSelectedForPathDisplay)]
        ["_isSelectedForHighlight" := Bool(isSelectedForHighlight)]
        ["_uniqueId" := Text(uniqueId)]
    }

    /** `graphic.attributes[field]`: a mixed-in field reads the layer's own value. */
    function Attr(field: string): Value
    {
      if field == "_isOrigin" then Bool(isOrigin)
      else if field == "_isSelectedForPathDisplay" then Bool(isSelectedForPathDisplay)
      else if field == "_isSelectedForHighlight" then Bool(isSelectedForHighlight)
      else if field == "_uniqueId" then Text(uniqueId)
      else Lookup(attributes, field)
    }

    /** Reading one field agrees with looking it up in the whole attribute map. */
    lemma AttrReadsAttributes(field: string)
      ensures Attr(field) == Lookup(Attributes(), field)
    {
    }

    /** A field other than the four mixed-in ones reads the input's own value. */
    lemma AttrOfInputField(field: string)
      requires !MixedInField(field)
      ensures Attr(field) == Lookup(attributes, field)
    {
    }

    /** `graphic.geometry`: the ghost sits on its own end of the flow. */
    function Geometry(): GeoPoint
    {
      if isOrigin then origin else destination
    }
  }

  /*** Ghost graphics ***/

  function DigitChar(d: nat): char
    requires d < 10
  {
    "0123456789"[d]
  }

  /** A natural number in decimal, as JavaScript's `index + ''` writes it. */
  function NatToString(n: nat): (s: string)
    ensures |s| >= 1
    ensures n < 10 <==> |s| == 1
    decreases n
  {
    if n < 10 then [DigitChar(n)] else NatToString(n / 10) + [DigitChar(n % 10)]
  }

  lemma {:induction false} NatToStringInjective(a: nat, b: nat)
    requires NatToString(a) == NatToString(b)
    ensures a == b
    decreases a
  {
    if a >= 10 && b >= 10 {
      var sa, sb := NatToString(a), NatToString(b);
      assert sa[..|sa| - 1] == NatToString(a / 10);
      assert sb[..|sb| - 1] == NatToString(b / 10);
      NatToStringInjective(a / 10, b / 10);
      assert DigitChar(a % 10) == sa[|sa| - 1] == DigitChar(b % 10);
    } else if a < 10 && b < 10 {
      assert DigitChar(a) == DigitChar(b);
    }
  }

  /** `index + '_o'` for an origin, `index + '_d'` for a destination. */
  function GhostId(index: nat, isOrigin: bool): string
  {
    NatToString(index) + (if isOrigin then "_o" else "_d")
  }

  /** Ghost ids tell apart the position and the end they were made for. */
  lemma GhostIdInjective(i: nat, a: bool, j: nat, b: bool)
    requires GhostId(i, a) == GhostId(j, b)
    ensures i == j && a == b
  {
    var s, t := GhostId(i, a), GhostId(j, b);
    assert s[|s| - 1] == t[|t| - 1];
    assert s[..|s| - 2] == NatToString(i);
    assert t[..|t| - 2] == NatToString(j);
    NatToStringInjective(i, j);
  }

  /** The input's attributes hold a number for each of the four coordinate fields. */
  predicate HasNumericGeometry(attributes: map<string, Value>, ids: FieldIds)
  {
    && Lookup(attributes, ids.originGeometry.x).Num?
    && Lookup(attributes, ids.originGeometry.y).Num?
    && Lookup(attributes, ids.destinationGeometry.x).Num?
    && Lookup(attributes, ids.destinationGeometry.y).Num?
  }

  /** The point one end's geometry fields describe. */
  function EndPoint(attributes: map<string, Value>, g: GeometryFields): GeoPoint
    requires Lookup(attributes, g.x).Num? && Lookup(attributes, g.y).Num?
  {
    GeoPoint(Lookup(attributes, g.x).n, Lookup(attributes, g.y).n, g.wkid)
  }

  /** `_constructGhostGraphic(json, isOrigin, uniqueId)` for the input at position `index`. */
  function GhostRecord(cfg: Config, input: InputGraphic, isOrigin: bool, index: nat): (r: Record)
    requires HasNumericGeometry(input.attributes, cfg.fieldIds)
    ensures r.isOrigin == isOrigin && r.uniqueId == GhostId(index, isOrigin)
    ensures r.attributes == input.attributes
    ensures r.isSelectedForPathDisplay <==> isOrigin && cfg.pathDisplayMode == "all"
    ensures !r.isSelectedForHighlight
  {
    Record(
      isOrigin,
      GhostId(index, isOrigin),
      input.attributes,
      EndPoint(input.attributes, cfg.fieldIds.originGeometry),
      EndPoint(input.attributes, cfg.fieldIds.destinationGeometry),
      cfg.pathDisplayMode == "all" && isOrigin,
      false)
  }

  /**
   * The symbol that sizes a ghost marker (its radius): the origin or destination circle
   * configuration resolved on the ghost's own attributes. `None` is where the construction throws.
   */
  function GhostSymbol(cfg: Config, r: Record): Option<Style>
  {
    Resolve(if r.isOrigin then cfg.originCircleProperties else cfg.destinationCircleProperties, r.Attributes())
  }

  predicate IsEsriGraphic(g: InputGraphic)
  {
    g.declaredClass == EsriGraphic
  }

  /** Every input `addGraphics` will turn into records has coordinates it can read. */
  predicate InputsReadable(cfg: Config, inputs: seq<InputGraphic>)
  {
    forall j :: 0 <= j < |inputs| && IsEsriGraphic(inputs[j]) ==> HasNumericGeometry(inputs[j].attributes, cfg.fieldIds)
  }

  /** Both ghosts of the input at position `j` can be sized. */
  predicate Sizable(cfg: Config, inputs: seq<InputGraphic>, j: nat)
    requires j < |inputs| && InputsReadable(cfg, inputs) && IsEsriGraphic(inputs[j])
  {
    && GhostSymbol(cfg, GhostRecord(cfg, inputs[j], true, j)).Some?
    && GhostSymbol(cfg, GhostRecord(cfg, inputs[j], false, j)).Some?
  }

  /** The records appended by `addGraphics`, and whether it ran to the end without throwing. */
  datatype AddOutcome = AddOutcome(records: seq<Record>, completed: bool)

  /**
   * What `addGraphics` appends for the input at position `index`: nothing for anything but an
   * `esri.Graphic`, otherwise its origin ghost and then its destination ghost, each only once
   * its symbol is resolved.
   */
  function InputGhosts(cfg: Config, input: InputGraphic, index: nat): (out: AddOutcome)
    requires IsEsriGraphic(input) ==> HasNumericGeometry(input.attributes, cfg.fieldIds)
    ensures |out.records| <= 2 && (out.completed ==> |out.records| == (if IsEsriGraphic(input) then 2 else 0))
  {
    if !IsEsriGraphic(input) then AddOutcome([], true)
    else
      var o := GhostRecord(cfg, input, true, index);
      if GhostSymbol(cfg, o).None? then AddOutcome([], false)
      else
        var d := GhostRecord(cfg, input, false, index);
        if GhostSymbol(cfg, d).None? then AddOutcome([o], false)
        else AddOutcome([o, d], true)
  }

  /**
   * `addGraphics` over the first `n` inputs: two records per `esri.Graphic`, origin first; a
   * ghost whose symbol cannot be resolved throws before it is added, and nothing after it runs.
   */
  function AddRun(cfg: Config, inputs: seq<InputGraphic>, n: nat): AddOutcome
    requires n <= |inputs| && InputsReadable(cfg, inputs)
    decreases n
  {
    if n == 0 then AddOutcome([], true)
    else
      var prev := AddRun(cfg, inputs, n - 1);
      if !prev.completed then prev
      else
        var step := InputGhosts(cfg, inputs[n - 1], n - 1);
        AddOutcome(prev.records + step.records, step.completed)
  }

  /** One more input: `addGraphics` appends what that input gives. */
  lemma AddRunStep(cfg: Config, inputs: seq<InputGraphic>, i: nat)
    requires i < |inputs| && InputsReadable(cfg, inputs) && AddRun(cfg, inputs, i).completed
    ensures var prev, step := AddRun(cfg, inputs, i), InputGhosts(cfg, inputs[i], i);
      AddRun(cfg, inputs, i + 1) == AddOutcome(prev.records + step.records, step.completed)
  {
  }

  /** The positions of the inputs that are `esri.Graphic`s among the first `n`, in order. */
  function EsriIndices(inputs: seq<InputGraphic>, n: nat): (idx: seq<nat>)
    requires n <= |inputs|
    ensures forall k :: 0 <= k < |idx| ==> idx[k] < n && IsEsriGraphic(inputs[idx[k]])
    ensures forall k, l :: 0 <= k < l < |idx| ==> idx[k] < idx[l]
    ensures forall j :: 0 <= j < n && IsEsriGraphic(inputs[j]) ==> j in idx
    decreases n
  {
    if n == 0 then []
    else EsriIndices(inputs, n - 1) + (if IsEsriGraphic(inputs[n - 1]) then [n - 1] else [])
  }

  /** Every `esri.Graphic` among the first `n` inputs has two ghosts that can be sized. */
  predicate AllSizable(cfg: Config, inputs: seq<InputGraphic>, n: nat)
    requires n <= |inputs| && InputsReadable(cfg, inputs)
  {
    forall j :: 0 <= j < n && IsEsriGraphic(inputs[j]) ==> Sizable(cfg, inputs, j)
  }

  /** The records `addGraphics` appends when nothing throws: a ghost pair per `esri.Graphic`. */
  function GhostPairs(cfg: Config, inputs: seq<InputGraphic>, n: nat): seq<Record>
    requires n <= |inputs| && InputsReadable(cfg, inputs)
    decreases n
  {
    if n == 0 then []
    else
      GhostPairs(cfg, inputs, n - 1)
      + (if IsEsriGraphic(inputs[n - 1])
         then [GhostRecord(cfg, inputs[n - 1], true, n - 1), GhostRecord(cfg, inputs[n - 1], false, n - 1)]
         else [])
  }

  /** What one input adds when `addGraphics` gets past it: nothing, or its ghost pair. */
  lemma InputGhostsCompletes(cfg: Config, inputs: seq<InputGraphic>, j: nat)
    requires j < |inputs| && InputsReadable(cfg, inputs)
    ensures var out := InputGhosts(cfg, inputs[j], j);
      && (out.completed <==> !IsEsriGraphic(inputs[j]) || Sizable(cfg, inputs, j))
      && (out.completed && !IsEsriGraphic(inputs[j]) ==> out.records == [])
      && (out.completed && IsEsriGraphic(inputs[j]) ==>
            out.records == [GhostRecord(cfg, inputs[j], true, j), GhostRecord(cfg, inputs[j], false, j)])
  {
  }

  /** AllSizable over one more input. */
  lemma AllSizableStep(cfg: Config, inputs: seq<InputGraphic>, n: nat)
    requires 0 < n <= |inputs| && InputsReadable(cfg, inputs)
    ensures AllSizable(cfg, inputs, n) <==>
      AllSizable(cfg, inputs, n - 1) && (IsEsriGraphic(inputs[n - 1]) ==> Sizable(cfg, inputs, n - 1))
  {
    if AllSizable(cfg, inputs, n - 1) && (IsEsriGraphic(inputs[n - 1]) ==> Sizable(cfg, inputs, n - 1)) {
      forall j | 0 <= j < n && IsEsriGraphic(inputs[j])
        ensures Sizable(cfg, inputs, j)
      {
        if j < n - 1 { assert AllSizable(cfg, inputs, n - 1); }
      }
    }
  }

  /** `addGraphics` runs to the end exactly when every ghost of every `esri.Graphic` can be sized. */
  lemma {:induction false} AddRunCompletes(cfg: Config, inputs: seq<InputGraphic>, n: nat)
    requires n <= |inputs| && InputsReadable(cfg, inputs)
    ensures AddRun(cfg, inputs, n).completed <==> AllSizable(cfg, inputs, n)
    decreases n
  {
    if n > 0 {
      AddRunCompletes(cfg, inputs, n - 1);
      AllSizableStep(cfg, inputs, n);
      if AddRun(cfg, inputs, n - 1).completed {
        AddRunStep(cfg, inputs, n - 1);
        InputGhostsCompletes(cfg, inputs, n - 1);
      }
    }
  }

  /** When `addGraphics` runs to the end, it has appended exactly the ghost pairs. */
  lemma {:induction false} AddRunAppendsGhostPairs(cfg: Config, inputs: seq<InputGraphic>, n: nat)
    requires n <= |inputs| && InputsReadable(cfg, inputs)
    requires AddRun(cfg, inputs, n).completed
    ensures AddRun(cfg, inputs, n).records == GhostPairs(cfg, inputs, n)
    decreases n
  {
    if n > 0 {
      assert AddRun(cfg, inputs, n - 1).completed;
      AddRunAppendsGhostPairs(cfg, inputs, n - 1);
      AddRunStep(cfg, inputs, n - 1);
      InputGhostsCompletes(cfg, inputs, n - 1);
    }
  }

  /** Once a ghost has thrown, later inputs add nothing. */
  lemma {:induction false} AddRunStops(cfg: Config, inputs: seq<InputGraphic>, m: nat, n: nat)
    requires m <= n <= |inputs| && InputsReadable(cfg, inputs)
    requires !AddRun(cfg, inputs, m).completed
    ensures AddRun(cfg, inputs, n) == AddRun(cfg, inputs, m)
    decreases n
  {
    if n > m {
      AddRunStops(cfg, inputs, m, n - 1);
    }
  }

  /**
   * The ghost pairs, laid out: entries 2k and 2k+1 are the origin and the destination built
   * from the k-th `esri.Graphic`, and their ids carry that input's position in the whole
   * array, so skipped inputs still use up an index.
   */
  lemma {:induction false} GhostPairsLayout(cfg: Config, inputs: seq<InputGraphic>, n: nat)
    requires n <= |inputs| && InputsReadable(cfg, inputs)
    ensures var gp, idx := GhostPairs(cfg, inputs, n), EsriIndices(inputs, n);
      && |gp| == 2 * |idx|
      && forall k :: 0 <= k < |idx| ==>
           && gp[2 * k] == GhostRecord(cfg, inputs[idx[k]], true, idx[k])
           && gp[2 * k + 1] == GhostRecord(cfg, inputs[idx[k]], false, idx[k])
    decreases n
  {
    if n > 0 {
      GhostPairsLayout(cfg, inputs, n - 1);
    }
  }

  /** The id of entry `a` of the ghost pairs names the input it came from and its end. */
  lemma GhostPairId(cfg: Config, inputs: seq<InputGraphic>, a: nat)
    requires InputsReadable(cfg, inputs) && a < |GhostPairs(cfg, inputs, |inputs|)|
    ensures var idx := EsriIndices(inputs, |inputs|);
      a / 2 < |idx| && GhostPairs(cfg, inputs, |inputs|)[a].uniqueId == GhostId(idx[a / 2], a % 2 == 0)
  {
    GhostPairsLayout(cfg, inputs, |inputs|);
    assert a == 2 * (a / 2) + a % 2;
  }

  /** Within one call the ghost ids are all different. */
  lemma GhostIdsDistinct(cfg: Config, inputs: seq<InputGraphic>)
    requires InputsReadable(cfg, inputs)
    ensures var gp := GhostPairs(cfg, inputs, |inputs|);
      forall a, b :: 0 <= a < b < |gp| ==> gp[a].uniqueId != gp[b].uniqueId
  {
    var gp, idx := GhostPairs(cfg, inputs, |inputs|), EsriIndices(inputs, |inputs|);
    forall a, b | 0 <= a < b < |gp|
      ensures gp[a].uniqueId != gp[b].uniqueId
    {
      GhostPairId(cfg, inputs, a);
      GhostPairId(cfg, inputs, b);
      if gp[a].uniqueId == gp[b].uniqueId {
        GhostIdInjective(idx[a / 2], a % 2 == 0, idx[b / 2], b % 2 == 0);
      }
    }
  }

  /**
   * Ids restart at 0 on every call: in two calls that both run to the end, the ghosts at the
   * same place whose inputs sat at the same position get the same id.
   */
  lemma IdsCollideAcrossCalls(cfg: Config, first: seq<InputGraphic>, second: seq<InputGraphic>, a: nat)
    requires InputsReadable(cfg, first) && InputsReadable(cfg, second)
    requires AddRun(cfg, first, |first|).completed && AddRun(cfg, second, |second|).completed
    requires a < 2 * |EsriIndices(first, |first|)| && a < 2 * |EsriIndices(second, |second|)|
    requires EsriIndices(first, |first|)[a / 2] == EsriIndices(second, |second|)[a / 2]
    ensures a < |AddRun(cfg, first, |first|).records| && a < |AddRun(cfg, second, |second|).records|
    ensures AddRun(cfg, first, |first|).records[a].uniqueId == AddRun(cfg, second, |second|).records[a].uniqueId
  {
    AddRunAppendsGhostPairs(cfg, first, |first|);
    AddRunAppendsGhostPairs(cfg, second, |second|);
    GhostPairsLayout(cfg, first, |first|);
    GhostPairsLayout(cfg, second, |second|);
    GhostPairId(cfg, first, a);
    GhostPairId(cfg, second, a);
  }

  /**
   * For instance, the first origins of two separate calls, each given one graphic, both get
   * the id "0_o".
   */
  lemma IdsCollideExample(cfg: Config, first: InputGraphic, second: InputGraphic)
    requires IsEsriGraphic(first) && IsEsriGraphic(second)
    requires InputsReadable(cfg, [first]) && InputsReadable(cfg, [second])
    requires Sizable(cfg, [first], 0) && Sizable(cfg, [second], 0)
    ensures |AddRun(cfg, [first], 1).records| == 2 && |AddRun(cfg, [second], 1).records| == 2
    ensures AddRun(cfg, [first], 1).records[0].uniqueId == "0_o"
    ensures AddRun(cfg, [second], 1).records[0].uniqueId == "0_o"
  {
    assert NatToString(0) == "0";
  }

  /*** Selection ***/

  /** The two flags the selection operations drive. */
  datatype Flag = PathDisplay | Highlight

  const SelectionNew := "SELECTION_NEW"
  const SelectionAdd := "SELECTION_ADD"
  const SelectionSubtract := "SELECTION_SUBTRACT"

  predicate KnownMode(mode: string)
  {
    mode == SelectionNew || mode == SelectionAdd || mode == SelectionSubtract
  }

  function FlagOf(r: Record, flag: Flag): bool
  {
    match flag
    case PathDisplay => r.isSelectedForPathDisplay
    case Highlight => r.isSelectedForHighlight
  }

  /** `graphic.attributes[selectionAttributeName] = b`. */
  function WithFlag(r: Record, flag: Flag, b: bool): (r': Record)
    ensures FlagOf(r', flag) == b
  {
    match flag
    case PathDisplay => r.(isSelectedForPathDisplay := b)
    case Highlight => r.(isSelectedForHighlight := b)
  }

  /** `selectionGraphics.map(graphic => graphic.attributes._uniqueId)`. */
  function UniqueIds(selection: seq<Record>): (ids: seq<string>)
    ensures |ids| == |selection|
    ensures forall k :: 0 <= k < |ids| ==> ids[k] == selection[k].uniqueId
  {
    seq(|selection|, k requires 0 <= k < |selection| => selection[k].uniqueId)
  }

  /** What one iteration of `_applyGraphicsSelection`'s loop does to one record. */
  function SelectOne(r: Record, ids: seq<string>, mode: string, flag: Flag): Record
  {
    if mode == SelectionNew then WithFlag(r, flag, r.uniqueId in ids)
    else if mode == SelectionAdd && r.uniqueId in ids then WithFlag(r, flag, true)
    else if mode == SelectionSubtract && r.uniqueId in ids then WithFlag(r, flag, false)
    else r
  }

  /**
   * The records after `_applyGraphicsSelection`: a new selection makes the flag say exactly
   * "the id is selected", adding only raises it on selected ids, subtracting only lowers it;
   * nothing else of any record changes, and an unknown mode changes nothing.
   */
  function Select(rs: seq<Record>, ids: seq<string>, mode: string, flag: Flag): (r: seq<Record>)
    ensures |r| == |rs|
    ensures forall i :: 0 <= i < |rs| ==> r[i] == WithFlag(rs[i], flag, FlagOf(r[i], flag))
    ensures mode == SelectionNew ==> forall i :: 0 <= i < |rs| ==> (FlagOf(r[i], flag) <==> rs[i].uniqueId in ids)
    ensures mode == SelectionAdd ==>
      forall i :: 0 <= i < |rs| ==> (FlagOf(r[i], flag) <==> FlagOf(rs[i], flag) || rs[i].uniqueId in ids)
    ensures mode == SelectionSubtract ==>
      forall i :: 0 <= i < |rs| ==> (FlagOf(r[i], flag) <==> FlagOf(rs[i], flag) && rs[i].uniqueId !in ids)
    ensures !KnownMode(mode) ==> r == rs
  {
    var r := seq(|rs|, i requires 0 <= i < |rs| => SelectOne(rs[i], ids, mode, flag));
    assert !KnownMode(mode) ==> r == rs;
    r
  }

  /** `clearAll*Selections`: the flag lowered on every record. */
  function ClearFlag(rs: seq<Record>, flag: Flag): (r: seq<Record>)
    ensures |r| == |rs|
    ensures forall i :: 0 <= i < |rs| ==> r[i] == WithFlag(rs[i], flag, false)
  {
    seq(|rs|, i requires 0 <= i < |rs| => WithFlag(rs[i], flag, false))
  }

  /**
   * Three graphics with ids "1", "2", "3", all selected: a new selection of {2, 3} gives
   * (false, true, true), adding {1} then gives (true, true, true), subtracting {2} then gives
   * (true, false, true).
   */
  lemma SelectionModesExample(r1: Record, r2: Record, r3: Record, flag: Flag)
    requires r1.uniqueId == "1" && r2.uniqueId == "2" && r3.uniqueId == "3"
    requires FlagOf(r1, flag) && FlagOf(r2, flag) && FlagOf(r3, flag)
    ensures var s1 := Select([r1, r2, r3], ["2", "3"], SelectionNew, flag);
      var s2 := Select(s1, ["1"], SelectionAdd, flag);
      var s3 := Select(s2, ["2"], SelectionSubtract, flag);
      && [FlagOf(s1[0], flag), FlagOf(s1[1], flag), FlagOf(s1[2], flag)] == [false, true, true]
      && [FlagOf(s2[0], flag), FlagOf(s2[1], flag), FlagOf(s2[2], flag)] == [true, true, true]
      && [FlagOf(s3[0], flag), FlagOf(s3[1], flag), FlagOf(s3[2], flag)] == [true, false, true]
  {
    assert "1" != "2" && "1" != "3" && "2" != "3" by {
      assert "1"[0] != "2"[0] && "1"[0] != "3"[0] && "2"[0] != "3"[0];
    }
  }

  /** Clearing a flag is a new selection of nothing. */
  lemma ClearIsEmptyNewSelection(rs: seq<Record>, flag: Flag)
    ensures ClearFlag(rs, flag) == Select(rs, [], SelectionNew, flag)
  {
  }

  /** The selection flags never interfere: selecting on one leaves the other as it was. */
  lemma SelectLeavesOtherFlag(rs: seq<Record>, ids: seq<string>, mode: string, flag: Flag, other: Flag)
    requires other != flag
    ensures forall i :: 0 <= i < |rs| ==> FlagOf(Select(rs, ids, mode, flag)[i], other) == FlagOf(rs[i], other)
  {
    var r := Select(rs, ids, mode, flag);
    forall i | 0 <= i < |rs|
      ensures FlagOf(r[i], other) == FlagOf(rs[i], other)
    {
      assert r[i] == WithFlag(rs[i], flag, FlagOf(r[i], flag));
    }
  }

  /*** Shared endpoints ***/

  /** `_getSharedOriginOrDestinationGraphics`'s result. */
  datatype SharedGraphics = SharedGraphics(
    isOriginGraphic: bool,
    sharedOriginGraphics: seq<Record>,
    sharedDestinationGraphics: seq<Record>)

  /** The test of the `filter` in `_getSharedOriginOrDestinationGraphics`: an origin graphic whose `field` is `key`. */
  function SharesKey(field: string, key: Value): Record -> bool
  {
    (g: Record) => g.isOrigin && g.Attr(field) == key
  }

  /**
   * For an origin graphic, every origin with the same origin id; for a destination graphic,
   * every origin with the same destination id (the flows arriving there): the graphics at the
   * matching positions, each once and in storage order; the other list is empty.
   */
  function GetShared(rs: seq<Record>, ids: FieldIds, test: Record): (r: SharedGraphics)
    ensures r.isOriginGraphic == test.isOrigin
    ensures test.isOrigin ==>
      var idx := FilterIndices(rs, SharesKey(ids.originUniqueIdField, test.Attr(ids.originUniqueIdField)));
      && r.sharedDestinationGraphics == []
      && |r.sharedOriginGraphics| == |idx|
      && forall k :: 0 <= k < |idx| ==> r.sharedOriginGraphics[k] == rs[idx[k]]
    ensures !test.isOrigin ==>
      var idx := FilterIndices(rs, SharesKey(ids.destinationUniqueIdField, test.Attr(ids.destinationUniqueIdField)));
      && r.sharedOriginGraphics == []
      && |r.sharedDestinationGraphics| == |idx|
      && forall k :: 0 <= k < |idx| ==> r.sharedDestinationGraphics[k] == rs[idx[k]]
  {
    if test.isOrigin then
      SharedGraphics(true, Filter(rs, SharesKey(ids.originUniqueIdField, test.Attr(ids.originUniqueIdField))), [])
    else
      SharedGraphics(false, [], Filter(rs, SharesKey(ids.destinationUniqueIdField, test.Attr(ids.destinationUniqueIdField))))
  }

  /** Which graphics the lists hold: the origins carrying the test graphic's id at its end. */
  lemma GetSharedMembers(rs: seq<Record>, ids: FieldIds, test: Record)
    ensures var r := GetShared(rs, ids, test);
      var field := if test.isOrigin then ids.originUniqueIdField else ids.destinationUniqueIdField;
      var list := if test.isOrigin then r.sharedOriginGraphics else r.sharedDestinationGraphics;
      forall g :: g in list <==> g in rs && g.isOrigin && g.Attr(field) == test.Attr(field)
  {
    var r := GetShared(rs, ids, test);
    var field := if test.isOrigin then ids.originUniqueIdField else ids.destinationUniqueIdField;
    var list := if test.isOrigin then r.sharedOriginGraphics else r.sharedDestinationGraphics;
    var p := SharesKey(field, test.Attr(field));
    var idx := FilterIndices(rs, p);
    forall g
      ensures g in list <==> g in rs && g.isOrigin && g.Attr(field) == test.Attr(field)
    {
      if g in list {
        var k :| 0 <= k < |list| && list[k] == g;
        assert p(rs[idx[k]]);
      }
      if g in rs && p(g) {
        var i :| 0 <= i < |rs| && rs[i] == g;
        assert i in idx;
        var k :| 0 <= k < |idx| && idx[k] == i;
        assert list[k] == g;
      }
    }
  }

  /** What `selectGraphicsForPathDisplayById` does before selecting. */
  datatype ByIdLookup =
    | InvalidField                    // the guard rejects the field name; nothing happens
    | NoSuchGraphic                   // no graphic matches; reading its attributes throws
    | Found(selection: seq<Record>)   // the graphics to select

  predicate EndpointMatches(g: Record, field: string, value: Value, isOrigin: bool)
  {
    g.isOrigin == isOrigin && g.Attr(field) == value
  }

  /** The position of the first graphic with the given end and id value: `filter(...)[0]`. */
  function FirstEndpoint(rs: seq<Record>, field: string, value: Value, isOrigin: bool): (k: Option<nat>)
    ensures k.Some? ==> k.value < |rs| && EndpointMatches(rs[k.value], field, value, isOrigin)
    ensures k.Some? ==> forall j :: 0 <= j < k.value ==> !EndpointMatches(rs[j], field, value, isOrigin)
    ensures k.None? <==> forall j :: 0 <= j < |rs| ==> !EndpointMatches(rs[j], field, value, isOrigin)
    decreases |rs|
  {
    if rs == [] then None
    else if EndpointMatches(rs[0], field, value, isOrigin) then Some(0)
    else
      match FirstEndpoint(rs[1..], field, value, isOrigin)
      case None => None
      case Some(j) => Some(j + 1)
  }

  /**
   * The lookup of `selectGraphicsForPathDisplayById`: reject a field that is neither unique-id
   * field, take the first graphic with the given end and id value, and select the graphics
   * sharing its endpoint.
   */
  function ByIdSelection(rs: seq<Record>, ids: FieldIds, field: string, value: Value, isOrigin: bool): (r: ByIdLookup)
    ensures r.InvalidField? <==> field != ids.originUniqueIdField && field != ids.destinationUniqueIdField
    ensures r.NoSuchGraphic? <==>
      !r.InvalidField? && forall i :: 0 <= i < |rs| ==> !EndpointMatches(rs[i], field, value, isOrigin)
    ensures r.Found? ==>
      exists i :: 0 <= i < |rs| && EndpointMatches(rs[i], field, value, isOrigin)
        && (forall j :: 0 <= j < i ==> !EndpointMatches(rs[j], field, value, isOrigin))
        && var shared := GetShared(rs, ids, rs[i]);
           r.selection == if rs[i].isOrigin then shared.sharedOriginGraphics else shared.sharedDestinationGraphics
  {
    if field != ids.originUniqueIdField && field != ids.destinationUniqueIdField then InvalidField
    else
      match FirstEndpoint(rs, field, value, isOrigin)
      case None => NoSuchGraphic
      case Some(i) =>
        var shared := GetShared(rs, ids, rs[i]);
        var selection := if rs[i].isOrigin then shared.sharedOriginGraphics else shared.sharedDestinationGraphics;
        assert 0 <= i < |rs| && EndpointMatches(rs[i], field, value, isOrigin);
        Found(selection)
  }
}
