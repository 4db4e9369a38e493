/**
 * The symbol resolver: the `simple` / `uniqueValue` / `classBreaks` renderer lookup that the
 * layer repeats for ghost sizing, canvas points and canvas paths.
 */
module Symbols {
  import opened Wrappers
  import opened Values

  /**
   * The canvas paint properties a symbol object carries. Point symbols use the first six,
   * path symbols the line and shadow ones; an absent property is the empty string or zero here.
   */
  datatype Style = Style(
    globalCompositeOperation: string,
    radius: real,
    fillStyle: string,
    lineWidth: real,
    strokeStyle: string,
    shadowBlur: real,
    lineCap: string,
    shadowColor: string,
    lineDashOffsetSize: real)

  datatype UniqueValueInfo = UniqueValueInfo(value: Value, symbol: Style)

  datatype ClassBreakInfo = ClassBreakInfo(classMinValue: real, classMaxValue: real, symbol: Style)

  /** A renderer configuration object, by its `type`. */
  datatype SymbolConfig =
    | Simple(symbol: Style)
    | UniqueValue(field: string, uniqueValueInfos: seq<UniqueValueInfo>)
    | ClassBreaks(field: string, classBreakInfos: seq<ClassBreakInfo>, defaultSymbol: Style)

  /** `info.value === attributes[field]`. */
  predicate MatchesValue(info: UniqueValueInfo, v: Value)
  {
    info.value == v
  }

  /** `info.classMinValue <= v && info.classMaxValue >= v`, false when v coerces to NaN. */
  predicate InClassBreak(info: ClassBreakInfo, v: Value)
  {
    match ToNumber(v)
    case None => false
    case Some(x) => info.classMinValue <= x && info.classMaxValue >= x
  }

  /** The position of the first `uniqueValueInfos` entry holding `v`, if any. */
  function FirstMatch(infos: seq<UniqueValueInfo>, v: Value): (k: Option<nat>)
    ensures k.Some? ==> k.value < |infos|
    decreases |infos|
  {
    if infos == [] then None
    else if MatchesValue(infos[0], v) then Some(0)
    else
      match FirstMatch(infos[1..], v)
      case None => None
      case Some(j) => Some(j + 1)
  }

  /** FirstMatch finds the first entry holding `v`, and nothing exactly when none does. */
  lemma {:induction false} FirstMatchIsFirst(infos: seq<UniqueValueInfo>, v: Value)
    ensures var k := FirstMatch(infos, v);
      && (k.Some? ==> MatchesValue(infos[k.value], v) && forall j :: 0 <= j < k.value ==> !MatchesValue(infos[j], v))
      && (k.None? <==> forall j :: 0 <= j < |infos| ==> !MatchesValue(infos[j], v))
    decreases |infos|
  {
    if infos != [] && !MatchesValue(infos[0], v) {
      FirstMatchIsFirst(infos[1..], v);
      assert forall j :: 1 <= j < |infos| ==> infos[j] == infos[1..][j - 1];
    }
  }

  /** The position of the first `classBreakInfos` entry whose range holds `v`, if any. */
  function FirstBreak(infos: seq<ClassBreakInfo>, v: Value): (k: Option<nat>)
    ensures k.Some? ==> k.value < |infos|
    decreases |infos|
  {
    if infos == [] then None
    else if InClassBreak(infos[0], v) then Some(0)
    else
      match FirstBreak(infos[1..], v)
      case None => None
      case Some(j) => Some(j + 1)
  }

  /** FirstBreak finds the first class holding `v`, and nothing exactly when none does. */
  lemma {:induction false} FirstBreakIsFirst(infos: seq<ClassBreakInfo>, v: Value)
    ensures var k := FirstBreak(infos, v);
      && (k.Some? ==> InClassBreak(infos[k.value], v) && forall j :: 0 <= j < k.value ==> !InClassBreak(infos[j], v))
      && (k.None? <==> forall j :: 0 <= j < |infos| ==> !InClassBreak(infos[j], v))
    decreases |infos|
  {
    if infos != [] && !InClassBreak(infos[0], v) {
      FirstBreakIsFirst(infos[1..], v);
      assert forall j :: 1 <= j < |infos| ==> infos[j] == infos[1..][j - 1];
    }
  }

  /**
   * The symbol a configuration gives a graphic with these attributes. `None` is the
   * `uniqueValue` case with no matching entry, where the layer's `filter(...)[0].symbol` throws.
   */
  function Resolve(config: SymbolConfig, attributes: map<string, Value>): (r: Option<Style>)
    ensures config.Simple? ==> r == Some(config.symbol)
    ensures r.None? ==> config.UniqueValue?
  {
    match config
    case Simple(symbol) => Some(symbol)
    case UniqueValue(field, infos) =>
      (match FirstMatch(infos, Lookup(attributes, field))
       case None => None
       case Some(k) => Some(infos[k].symbol))
    case ClassBreaks(field, infos, defaultSymbol) =>
      (match FirstBreak(infos, Lookup(attributes, field))
       case None => Some(defaultSymbol)
       case Some(k) => Some(infos[k].symbol))
  }

  /**
   * `uniqueValue`: the symbol of the first entry whose value is the attribute's, and no symbol
   * (a throw) exactly when no entry has that value.
   */
  lemma ResolveUniqueValue(config: SymbolConfig, attributes: map<string, Value>)
    requires config.UniqueValue?
    ensures var r, infos, v := Resolve(config, attributes), config.uniqueValueInfos, Lookup(attributes, config.field);
      && (r.None? <==> forall i :: 0 <= i < |infos| ==> infos[i].value != v)
      && (r.Some? ==> exists i :: 0 <= i < |infos| && infos[i].value == v && r.value == infos[i].symbol
                                 && forall j :: 0 <= j < i ==> infos[j].value != v)
  {
    var infos, v := config.uniqueValueInfos, Lookup(attributes, config.field);
    FirstMatchIsFirst(infos, v);
    var k := FirstMatch(infos, v);
    if k.Some? {
      assert infos[k.value].value == v;
    }
  }

  /**
   * `classBreaks`: the symbol of the first class whose range holds the attribute's value, or
   * the default symbol when none does; never a throw.
   */
  lemma ResolveClassBreaks(config: SymbolConfig, attributes: map<string, Value>)
    requires config.ClassBreaks?
    ensures var r, infos, v := Resolve(config, attributes), config.classBreakInfos, Lookup(attributes, config.field);
      && r.Some?
      && ((exists i :: 0 <= i < |infos| && InClassBreak(infos[i], v) && r.value == infos[i].symbol
                       && forall j :: 0 <= j < i ==> !InClassBreak(infos[j], v))
          || ((forall i :: 0 <= i < |infos| ==> !InClassBreak(infos[i], v)) && r.value == config.defaultSymbol))
  {
    var infos, v := config.classBreakInfos, Lookup(attributes, config.field);
    FirstBreakIsFirst(infos, v);
    var k := FirstBreak(infos, v);
    if k.Some? {
      assert InClassBreak(infos[k.value], v);
    }
  }

  /** Only a `uniqueValue` configuration can fail to give a symbol, and only for a value no entry has. */
  lemma ResolveFailsOnlyForUniqueValue(config: SymbolConfig, attributes: map<string, Value>)
    requires Resolve(config, attributes).None?
    ensures config.UniqueValue?
    ensures Lookup(attributes, config.field) !in (set info | info in config.uniqueValueInfos :: info.value)
  {
    ResolveUniqueValue(config, attributes);
  }
}
