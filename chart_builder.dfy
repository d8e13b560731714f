// The chart builder store of src/lib/stores/chartBuilder.svelte.js: a chart
// type, a chart configuration and a non-empty list of data layers, each
// mapping an array inside a fetched JSON response onto chart points.

module ChartBuilder {
  import opened Wrappers
  import opened Seqs
  import opened Strs

  /** A parsed JSON value; numbers are integers here. */
  datatype Json = JNull | JBool(b: bool) | JNum(n: int) | JStr(s: string) | JArr(items: seq<Json>) | JObj(members: seq<Member>)

  /** An object member, in the object's own order. */
  datatype Member = Member(key: string, value: Json)

  datatype Mapping = Mapping(dataPath: string, xProp: string, yProp: string, labelProp: string, color: string)

  /** A layer; a None response or error is null. */
  datatype Layer = Layer(
    id: string,
    name: string,
    endpoint: string,
    response: Option<Json>,
    mapping: Mapping,
    visible: bool,
    isLoading: bool,
    error: Option<string>)

  datatype ChartConfig = ChartConfig(title: string, xAxisLabel: string, yAxisLabel: string)

  /** A partial layer; a None field is absent from the patch. Patches never carry an id. */
  datatype LayerPatch = LayerPatch(
    name: Option<string>,
    endpoint: Option<string>,
    response: Option<Option<Json>>,
    mapping: Option<Mapping>,
    visible: Option<bool>,
    isLoading: Option<bool>,
    error: Option<Option<string>>)

  datatype MappingPatch = MappingPatch(
    dataPath: Option<string>,
    xProp: Option<string>,
    yProp: Option<string>,
    labelProp: Option<string>,
    color: Option<string>)

  datatype ConfigPatch = ConfigPatch(title: Option<string>, xAxisLabel: Option<string>, yAxisLabel: Option<string>)

  /** A chart point; None is an undefined x, and `caption` is the point's label. */
  datatype Point = Point(x: Option<Json>, y: int, caption: string, color: string)

  /** The data of one visible layer, as getAllChartData lists it. */
  datatype LayerData = LayerData(layerId: string, layerName: string, color: string, data: seq<Point>)

  /** A property of a sample item and its `typeof`. */
  datatype Property = Property(name: string, kind: string)

  datatype ArrayInfo = ArrayInfo(path: string, properties: seq<Property>, sampleItem: Json)

  const LayerColors: seq<string> :=
    ["#22c55e", "#3b82f6", "#f59e0b", "#ec4899", "#8b5cf6", "#06b6d4", "#ef4444", "#84cc16"]

  const DefaultChartType: string := "bar"

  const DefaultConfig: ChartConfig := ChartConfig("New Chart", "X Axis", "Y Axis")

  // ---------------------------------------------------------------------------
  // Colours and new layers
  // ---------------------------------------------------------------------------

  function Colors(layers: seq<Layer>): seq<string> {
    Map(layers, (l: Layer) => l.mapping.color)
  }

  /** getNextColor: the first palette colour no layer uses, else the palette cycled by count. */
  function GetNextColor(layers: seq<Layer>): (c: string)
    ensures c in LayerColors
    ensures (forall k :: 0 <= k < |LayerColors| ==> LayerColors[k] in Colors(layers)) ==>
              c == LayerColors[|layers| % |LayerColors|]
    ensures (exists k :: 0 <= k < |LayerColors| && LayerColors[k] !in Colors(layers)) ==>
              && c !in Colors(layers)
              && exists k :: 0 <= k < |LayerColors| && LayerColors[k] == c
                             && forall j :: 0 <= j < k ==> LayerColors[j] in Colors(layers)
  {
    var used := Colors(layers);
    var k := FindIndex(LayerColors, (c: string) => c !in used);
    if k == -1 then LayerColors[|layers| % |LayerColors|] else LayerColors[k]
  }

  /** With fewer layers than palette colours, a new layer's colour is unused. */
  lemma NextColorIsFresh(layers: seq<Layer>)
    requires |layers| < |LayerColors|
    ensures GetNextColor(layers) !in Colors(layers)
  {
    var used := Colors(layers);
    assert NoDuplicates(LayerColors);
    if forall k :: 0 <= k < |LayerColors| ==> LayerColors[k] in used {
      CoveredIsNoLonger(LayerColors, used);
    }
  }

  /** A sequence of distinct values all found in used is no longer than used. */
  lemma CoveredIsNoLonger(palette: seq<string>, used: seq<string>)
    requires NoDuplicates(palette)
    requires forall k :: 0 <= k < |palette| ==> palette[k] in used
    ensures |palette| <= |used|
  {
    NoDuplicatesCardinality(palette);
    CountDistinctAtMostLength(used);
    var a := set x | x in palette;
    var b := set x | x in used;
    assert a <= b;
    assert b == a + (b - a);
  }

  /** createEmptyLayer. */
  function EmptyLayer(id: string, existing: seq<Layer>): Layer {
    Layer(id, "Layer " + NatToString(|existing| + 1), "", None,
          Mapping("", "", "", "", GetNextColor(existing)), true, false, None)
  }

  // ---------------------------------------------------------------------------
  // Layer list operations
  // ---------------------------------------------------------------------------

  predicate UniqueIds(layers: seq<Layer>) {
    forall i, j :: 0 <= i < j < |layers| ==> layers[i].id != layers[j].id
  }

  function HasId(id: string): Layer -> bool {
    (l: Layer) => l.id == id
  }

  function NotId(id: string): Layer -> bool {
    (l: Layer) => l.id != id
  }

  /** The layers after the first have distinct ids, none of them the first's. */
  lemma UniqueIdsTail(layers: seq<Layer>)
    requires layers != [] && UniqueIds(layers)
    ensures UniqueIds(layers[1..])
    ensures forall l :: l in layers[1..] ==> l.id != layers[0].id
  {
    var tail := layers[1..];
    forall i, j | 0 <= i < j < |tail| ensures tail[i].id != tail[j].id {
      assert tail[i] == layers[i + 1] && tail[j] == layers[j + 1];
    }
    forall l | l in tail ensures l.id != layers[0].id {
      var k :| 0 <= k < |tail| && tail[k] == l;
      assert layers[k + 1] == l;
    }
  }

  /** Removing an id from layers with distinct ids drops at most one layer. */
  lemma {:induction false} RemoveDropsAtMostOne(layers: seq<Layer>, id: string)
    requires UniqueIds(layers)
    ensures |Filter(layers, NotId(id))| >= |layers| - 1
    decreases |layers|
  {
    if layers != [] {
      var tail := layers[1..];
      assert layers == [layers[0]] + tail;
      UniqueIdsTail(layers);
      if layers[0].id == id {
        FilterAll(tail, NotId(id));
      } else {
        RemoveDropsAtMostOne(tail, id);
      }
    }
  }

  /** Removing an id keeps the remaining ids distinct. */
  lemma {:induction false} RemoveKeepsIdsDistinct(layers: seq<Layer>, id: string)
    requires UniqueIds(layers)
    ensures UniqueIds(Filter(layers, NotId(id)))
    decreases |layers|
  {
    if layers != [] {
      var tail := layers[1..];
      assert layers == [layers[0]] + tail;
      UniqueIdsTail(layers);
      RemoveKeepsIdsDistinct(tail, id);
      var rest := Filter(tail, NotId(id));
      if layers[0].id != id {
        var r := Filter(layers, NotId(id));
        assert r == [layers[0]] + rest;
        forall i, j | 0 <= i < j < |r| ensures r[i].id != r[j].id {
          assert r[j] == rest[j - 1];
          if i > 0 {
            assert r[i] == rest[i - 1];
          }
        }
      }
    }
  }

  /** The layers with f applied to those that have the id; the others are untouched. */
  function UpdateWhere(layers: seq<Layer>, id: string, f: Layer -> Layer): (r: seq<Layer>)
    ensures |r| == |layers|
    ensures forall i :: 0 <= i < |r| ==> r[i] == if layers[i].id == id then f(layers[i]) else layers[i]
  {
    Map(layers, (l: Layer) => if l.id == id then f(l) else l)
  }

  /** An update that keeps ids keeps them distinct. */
  lemma UpdateKeepsIds(layers: seq<Layer>, id: string, f: Layer -> Layer)
    requires UniqueIds(layers)
    requires forall l :: f(l).id == l.id
    ensures UniqueIds(UpdateWhere(layers, id, f))
  {
    var r := UpdateWhere(layers, id, f);
    forall i, j | 0 <= i < j < |r| ensures r[i].id != r[j].id {
      assert r[i].id == layers[i].id && r[j].id == layers[j].id;
    }
  }

  /** `{ ...layer, ...updates }`. */
  function ApplyPatch(l: Layer, p: LayerPatch): (r: Layer)
    ensures r.id == l.id
  {
    Layer(l.id, p.name.GetOr(l.name), p.endpoint.GetOr(l.endpoint), p.response.GetOr(l.response),
          p.mapping.GetOr(l.mapping), p.visible.GetOr(l.visible), p.isLoading.GetOr(l.isLoading),
          p.error.GetOr(l.error))
  }

  function Patched(p: LayerPatch): Layer -> Layer {
    (l: Layer) => ApplyPatch(l, p)
  }

  /** `{ ...layer.mapping, ...mappingUpdates }`. */
  function ApplyMappingPatch(m: Mapping, p: MappingPatch): Mapping {
    Mapping(p.dataPath.GetOr(m.dataPath), p.xProp.GetOr(m.xProp), p.yProp.GetOr(m.yProp),
            p.labelProp.GetOr(m.labelProp), p.color.GetOr(m.color))
  }

  function MappingPatched(p: MappingPatch): Layer -> Layer {
    (l: Layer) => l.(mapping := ApplyMappingPatch(l.mapping, p))
  }

  function VisibilityToggled(): Layer -> Layer {
    (l: Layer) => l.(visible := !l.visible)
  }

  /** Toggling a layer's visibility twice restores the list. */
  lemma ToggleVisibilityTwice(layers: seq<Layer>, id: string)
    ensures UpdateWhere(UpdateWhere(layers, id, VisibilityToggled()), id, VisibilityToggled()) == layers
  {
    var once := UpdateWhere(layers, id, VisibilityToggled());
    var twice := UpdateWhere(once, id, VisibilityToggled());
    forall i | 0 <= i < |layers| ensures twice[i] == layers[i] {
      assert once[i].id == layers[i].id;
    }
  }

  /** moveLayer: swaps the layer with its upper or lower neighbour, if it has one. */
  function Moved(layers: seq<Layer>, id: string, direction: string): (r: seq<Layer>)
    ensures |r| == |layers|
    ensures multiset(r) == multiset(layers)
  {
    var i := FindIndex(layers, HasId(id));
    if i == -1 then layers
    else
      var j := if direction == "up" then i - 1 else i + 1;
      if j < 0 || j >= |layers| then layers
      else layers[i := layers[j]][j := layers[i]]
  }

  /** A move keeps the ids distinct. */
  lemma MovedKeepsIds(layers: seq<Layer>, id: string, direction: string)
    requires UniqueIds(layers)
    ensures UniqueIds(Moved(layers, id, direction))
  {
    var r := Moved(layers, id, direction);
    var i := FindIndex(layers, HasId(id));
    if i != -1 {
      var j := if direction == "up" then i - 1 else i + 1;
      if 0 <= j < |layers| {
        forall a, b | 0 <= a < b < |r| ensures r[a].id != r[b].id {
          var a' := if a == i then j else if a == j then i else a;
          var b' := if b == i then j else if b == j then i else b;
          assert r[a] == layers[a'] && r[b] == layers[b'];
        }
      }
    }
  }

  /** Moving the layer at i: the list with positions i and j swapped. */
  lemma MovedAt(layers: seq<Layer>, id: string, direction: string, i: nat)
    requires i < |layers| && HasId(id)(layers[i])
    requires forall j :: 0 <= j < i ==> !HasId(id)(layers[j])
    ensures var j := if direction == "up" then i - 1 else i + 1;
            Moved(layers, id, direction) ==
              if 0 <= j < |layers| then layers[i := layers[j]][j := layers[i]] else layers
  {
    assert FindIndex(layers, HasId(id)) == i;
  }

  /** Moving a layer up and then down again restores the list. */
  lemma MoveUpThenDown(layers: seq<Layer>, id: string)
    requires FindIndex(layers, HasId(id)) > 0
    ensures Moved(Moved(layers, id, "up"), id, "down") == layers
  {
    var p := HasId(id);
    var i := FindIndex(layers, p);
    MovedAt(layers, id, "up", i);
    var once := layers[i := layers[i - 1]][i - 1 := layers[i]];
    forall j | 0 <= j < i - 1 ensures !p(once[j]) {
      assert once[j] == layers[j];
    }
    assert once[i - 1] == layers[i];
    MovedAt(once, id, "down", i - 1);
    SwapBack(layers, i);
  }

  /** Swapping positions i - 1 and i twice restores the list. */
  lemma SwapBack<T>(s: seq<T>, i: nat)
    requires 0 < i < |s|
    ensures var once := s[i := s[i - 1]][i - 1 := s[i]];
            once[i - 1 := once[i]][i := once[i - 1]] == s
  {
    var once := s[i := s[i - 1]][i - 1 := s[i]];
    var twice := once[i - 1 := once[i]][i := once[i - 1]];
    forall k | 0 <= k < |s| ensures twice[k] == s[k] {
    }
  }

  // ---------------------------------------------------------------------------
  // JSON paths and layer data
  // ---------------------------------------------------------------------------

  /** A canonical array index: digits without a leading zero. */
  predicate IsIndex(key: string) {
    key != "" && AllDigits(key) && (key[0] != '0' || key == "0")
  }

  /** The last member with the key, the one a parsed object keeps of duplicate keys. */
  function MemberValue(members: seq<Member>, key: string): (r: Option<Json>)
    ensures r.None? <==> forall i :: 0 <= i < |members| ==> members[i].key != key
    ensures r.Some? ==> exists i :: 0 <= i < |members| && members[i].key == key && members[i].value == r.value
                                    && forall j :: i < j < |members| ==> members[j].key != key
  {
    var i := FindLastIndex(members, (m: Member) => m.key == key);
    if i == -1 then None else Some(members[i].value)
  }

  /** `acc?.[key]`: a member of an object or an element of an array; None is undefined. */
  function Prop(acc: Option<Json>, key: string): Option<Json> {
    match acc
    case None => None
    case Some(JObj(members)) => MemberValue(members, key)
    case Some(JArr(items)) =>
      if IsIndex(key) && DigitsValue(key) < |items| then Some(items[DigitsValue(key)]) else None
    case Some(_) => None
  }

  /** The reduce of getValueAtPath over the path's segments. */
  function Follow(acc: Option<Json>, keys: seq<string>): Option<Json>
    decreases |keys|
  {
    if keys == [] then acc else Follow(Prop(acc, keys[0]), keys[1..])
  }

  /** getValueAtPath. */
  function GetValueAtPath(obj: Json, path: string): (r: Option<Json>)
    ensures path == "" ==> r == Some(obj)
    ensures '.' !in path && path != "" ==> r == Prop(Some(obj), path)
  {
    if path == "" then Some(obj)
    else
      assert '.' !in path ==> Follow(Some(obj), Split(path, '.')) == Prop(Some(obj), path) by {
        if '.' !in path {
          SplitNoSeparator(path, '.');
          var keys := [path];
          assert keys[1..] == [];
          assert Follow(Some(obj), keys) == Follow(Prop(Some(obj), path), []);
        }
      }
      Follow(Some(obj), Split(path, '.'))
  }

  /** Once undefined, the rest of a path stays undefined. */
  lemma {:induction false} FollowUndefined(keys: seq<string>)
    ensures Follow(None, keys) == None
    decreases |keys|
  {
    if keys != [] {
      FollowUndefined(keys[1..]);
    }
  }

  /** Following a path in two steps is following it at once. */
  lemma {:induction false} FollowAppend(acc: Option<Json>, a: seq<string>, b: seq<string>)
    ensures Follow(acc, a + b) == Follow(Follow(acc, a), b)
    decreases |a|
  {
    if a == [] {
      assert a + b == b;
    } else {
      assert (a + b)[1..] == a[1..] + b;
      FollowAppend(Prop(acc, a[0]), a[1..], b);
    }
  }

  /** A dotted path is read by reading its head and then the rest from there. */
  lemma ValueAtDottedPath(obj: Json, head: string, rest: string)
    requires head != "" && rest != ""
    ensures GetValueAtPath(obj, head + "." + rest) == Follow(GetValueAtPath(obj, head), Split(rest, '.'))
  {
    SplitAppend(head, '.', rest);
    FollowAppend(Some(obj), Split(head, '.'), Split(rest, '.'));
  }

  predicate Falsy(v: Json) {
    v == JNull || v == JBool(false) || v == JNum(0) || v == JStr("")
  }

  /**
   * Number(s) of a text that, once trimmed, is empty or an optionally signed
   * run of decimal digits; None for every other text (NaN, or a decimal,
   * exponent or hexadecimal numeral, which the model does not read).
   */
  function NumberOfText(s: string): Option<int> {
    var t := Trim(s);
    if t == "" then Some(0)
    else if AllDigits(t) then Some(DigitsValue(t))
    else if |t| > 1 && (t[0] == '+' || t[0] == '-') && AllDigits(t[1..]) then
      Some(if t[0] == '-' then -(DigitsValue(t[1..]) as int) else DigitsValue(t[1..]))
    else None
  }

  /** `Number(v) || 0`: NaN and zero become 0; an array is read through its String(). */
  function NumberOr0(v: Option<Json>): int {
    match v
    case Some(JNum(n)) => n
    case Some(JBool(b)) => if b then 1 else 0
    case Some(JStr(s)) => NumberOfText(s).GetOr(0)
    case Some(JArr(_)) => NumberOfText(JsString(v.value)).GetOr(0)
    case _ => 0
  }

  /** Number() reads back the numeral String() writes, whatever white space surrounds it. */
  lemma NumberOfIntegerText(n: int, pre: string, post: string)
    requires forall i :: 0 <= i < |pre| ==> IsSpace(pre[i])
    requires forall i :: 0 <= i < |post| ==> IsSpace(post[i])
    ensures NumberOr0(Some(JStr(pre + IntToString(n) + post))) == n
  {
    NumberOfNumeral(n, pre, post);
  }

  /** An array holding just one number is read as that number, through its String(). */
  lemma NumberOfSingletonArray(n: int)
    ensures NumberOr0(Some(JArr([JNum(n)]))) == n
  {
    var t := IntToString(n);
    assert JsString(JArr([JNum(n)])) == Join([t], ',') == t;
    NumberOfNumeral(n, "", "");
    assert "" + t + "" == t;
  }

  lemma NumberOfNumeral(n: int, pre: string, post: string)
    requires forall i :: 0 <= i < |pre| ==> IsSpace(pre[i])
    requires forall i :: 0 <= i < |post| ==> IsSpace(post[i])
    ensures NumberOfText(pre + IntToString(n) + post) == Some(n)
  {
    var t := IntToString(n);
    assert !IsSpace(t[0]) && !IsSpace(t[|t| - 1]);
    TrimPadded(pre, t, post);
    NumberOfTrimmedNumeral(pre + t + post, n);
  }

  lemma NumberOfTrimmedNumeral(s: string, n: int)
    requires Trim(s) == IntToString(n)
    ensures NumberOfText(s) == Some(n)
  {
    var t := IntToString(n);
    if n >= 0 {
      DigitsValueOfNatToString(n);
    } else {
      assert !IsDigit(t[0]);
      assert t[1..] == NatToString(-n);
      DigitsValueOfNatToString(-n);
    }
  }

  /** Text with a character that is neither white space, a digit nor a leading sign is NaN, read as 0. */
  lemma NonNumericTextIsZero(s: string, i: nat)
    requires i < |Trim(s)| && !IsDigit(Trim(s)[i]) && (i > 0 || (Trim(s)[0] != '+' && Trim(s)[0] != '-'))
    ensures NumberOr0(Some(JStr(s))) == 0
  {
    var t := Trim(s);
    assert !AllDigits(t);
    if i > 0 {
      assert t[1..][i - 1] == t[i];
    }
  }

  /** String(v) of a JSON value; an array joins its elements with commas, null ones empty. */
  function JsString(v: Json): string
    decreases v
  {
    match v
    case JNull => "null"
    case JBool(b) => if b then "true" else "false"
    case JNum(n) => IntToString(n)
    case JStr(s) => s
    case JObj(_) => "[object Object]"
    case JArr(items) =>
      Join(seq(|items|, i requires 0 <= i < |items| => if items[i] == JNull then "" else JsString(items[i])), ',')
  }

  /** String(v), where None is undefined. */
  function OptString(v: Option<Json>): string {
    if v.Some? then JsString(v.value) else "undefined"
  }

  /** The array a layer's mapping selects, when its response, x and y are all set. */
  function DataArray(layer: Layer): (r: Option<seq<Json>>)
    ensures r.Some? <==>
              && layer.response.Some? && !Falsy(layer.response.value)
              && layer.mapping.xProp != "" && layer.mapping.yProp != ""
              && GetValueAtPath(layer.response.value, layer.mapping.dataPath).Some?
              && GetValueAtPath(layer.response.value, layer.mapping.dataPath).value.JArr?
    ensures r.Some? ==> GetValueAtPath(layer.response.value, layer.mapping.dataPath) == Some(JArr(r.value))
  {
    if layer.response.None? || Falsy(layer.response.value) || layer.mapping.xProp == "" || layer.mapping.yProp == "" then None
    else
      match GetValueAtPath(layer.response.value, layer.mapping.dataPath)
      case Some(JArr(items)) => Some(items)
      case _ => None
  }

  function PointOf(m: Mapping, item: Json): Point {
    var x := Prop(Some(item), m.xProp);
    Point(x, NumberOr0(Prop(Some(item), m.yProp)),
          if m.labelProp != "" then OptString(Prop(Some(item), m.labelProp)) else OptString(x),
          m.color)
  }

  /**
   * extractLayerData. None stands for the TypeError thrown when an item of
   * the data array is null, whose properties cannot be read.
   */
  function ExtractLayerData(layer: Layer): (r: Option<seq<Point>>)
    ensures DataArray(layer).None? ==> r == Some([])
    ensures r.None? <==> DataArray(layer).Some? && JNull in DataArray(layer).value
    ensures r.Some? && DataArray(layer).Some? ==>
              var items := DataArray(layer).value;
              var m := layer.mapping;
              && |r.value| == |items|
              && forall i :: 0 <= i < |r.value| ==>
                   && r.value[i].x == Prop(Some(items[i]), m.xProp)
                   && r.value[i].y == NumberOr0(Prop(Some(items[i]), m.yProp))
                   && r.value[i].caption == (if m.labelProp != "" then OptString(Prop(Some(items[i]), m.labelProp))
                                             else OptString(r.value[i].x))
                   && r.value[i].color == m.color
  {
    match DataArray(layer)
    case None => Some([])
    case Some(items) =>
      if JNull in items then None else Some(Map(items, (item: Json) => PointOf(layer.mapping, item)))
  }

  function VisibleLayers(layers: seq<Layer>): (r: seq<Layer>)
    ensures forall l :: l in r <==> l in layers && l.visible
  {
    Filter(layers, (l: Layer) => l.visible)
  }

  /**
   * getAllChartData: one entry per visible layer, in order; None when the
   * extraction of some visible layer throws.
   */
  function AllChartData(layers: seq<Layer>): (r: Option<seq<LayerData>>)
    ensures r.None? <==> exists l :: l in layers && l.visible && ExtractLayerData(l).None?
    ensures r.Some? ==>
              && |r.value| == |VisibleLayers(layers)|
              && forall i :: 0 <= i < |r.value| ==>
                   var l := VisibleLayers(layers)[i];
                   r.value[i] == LayerData(l.id, l.name, l.mapping.color, ExtractLayerData(l).value) && l.visible
  {
    var visible := VisibleLayers(layers);
    assert forall i :: 0 <= i < |visible| ==> visible[i] in visible;
    if exists i :: 0 <= i < |visible| && ExtractLayerData(visible[i]).None? then None
    else
      assert forall l :: l in visible ==> ExtractLayerData(l).Some?;
      Some(seq(|visible|, i requires 0 <= i < |visible| =>
             LayerData(visible[i].id, visible[i].name, visible[i].mapping.color, ExtractLayerData(visible[i]).value)))
  }

  // ---------------------------------------------------------------------------
  // JSON structure analysis
  // ---------------------------------------------------------------------------

  /** `typeof v`. */
  function TypeOf(v: Json): string {
    match v
    case JNull => "object"
    case JBool(_) => "boolean"
    case JNum(_) => "number"
    case JStr(_) => "string"
    case JArr(_) => "object"
    case JObj(_) => "object"
  }

  /** `Object.entries(item || {})` as names and types, in member order. */
  function PropertiesOf(item: Json): seq<Property> {
    if Falsy(item) then []
    else
      match item
      case JObj(members) => Map(members, (m: Member) => Property(m.key, TypeOf(m.value)))
      case JArr(items) => seq(|items|, i requires 0 <= i < |items| => Property(NatToString(i), TypeOf(items[i])))
      case JStr(s) => seq(|s|, i requires 0 <= i < |s| => Property(NatToString(i), "string"))
      case _ => []
  }

  /** The path of a member below path. */
  function ChildPath(path: string, key: string): string {
    if path != "" then path + "." + key else key
  }

  /**
   * analyzeJsonStructure. An array is reported alone, without descending into
   * its items; a value that is neither an array nor an object reports nothing.
   */
  function AnalyzeJsonStructure(obj: Json, path: string): (r: seq<ArrayInfo>)
    ensures obj.JArr? ==> |r| == (if obj.items == [] then 0 else 1)
    ensures obj.JArr? && obj.items != [] ==>
              r[0] == ArrayInfo(if path != "" then path else "(root)", PropertiesOf(obj.items[0]), obj.items[0])
    ensures !obj.JArr? && !obj.JObj? ==> r == []
    decreases obj
  {
    var here :=
      if obj.JArr? && |obj.items| > 0
      then [ArrayInfo(if path != "" then path else "(root)", PropertiesOf(obj.items[0]), obj.items[0])]
      else [];
    var below :=
      if obj.JObj?
      then Concat(seq(|obj.members|, i requires 0 <= i < |obj.members| =>
                    AnalyzeJsonStructure(obj.members[i].value, ChildPath(path, obj.members[i].key))))
      else [];
    here + below
  }

  /** A key the dotted paths can name: non-empty, without a dot, and not "(root)". */
  predicate PlainKey(key: string) {
    key != "" && '.' !in key && key != "(root)"
  }

  /** Every object in v has plain keys, each once. */
  predicate PlainKeys(v: Json)
    decreases v
  {
    match v
    case JObj(members) =>
      && (forall i :: 0 <= i < |members| ==> PlainKey(members[i].key))
      && (forall i, j :: 0 <= i < j < |members| ==> members[i].key != members[j].key)
      && forall i :: 0 <= i < |members| ==> PlainKeys(members[i].value)
    case JArr(items) => forall i :: 0 <= i < |items| ==> PlainKeys(items[i])
    case _ => true
  }

  /** Joining plain keys gives "" only for no keys. */
  lemma JoinOfPlainKeys(keys: seq<string>)
    requires forall i :: 0 <= i < |keys| ==> PlainKey(keys[i])
    ensures Join(keys, '.') == "" <==> keys == []
    ensures keys != [] ==> Join(keys, '.') != "(root)"
  {
    if |keys| == 1 {
      assert Join(keys, '.') == keys[0];
    } else if |keys| > 1 {
      var j := Join(keys, '.');
      assert j == keys[0] + ['.'] + Join(keys[1..], '.');
      assert j[|keys[0]|] == '.';
      assert '.' in j && '.' !in "(root)";
    }
  }

  /** The child path of a joined path is the joined path of one more key. */
  lemma ChildPathOfJoin(keys: seq<string>, key: string)
    requires forall i :: 0 <= i < |keys| ==> PlainKey(keys[i])
    ensures ChildPath(Join(keys, '.'), key) == Join(keys + [key], '.')
  {
    JoinOfPlainKeys(keys);
    if keys == [] {
      assert keys + [key] == [key];
    } else {
      JoinSnoc(keys, key, '.');
    }
  }

  /**
   * e reports the non-empty array found by following the plain keys more
   * from v, under the path of keys followed by more.
   */
  predicate FoundAt(v: Json, keys: seq<string>, e: ArrayInfo, more: seq<string>) {
    && (forall i :: 0 <= i < |more| ==> PlainKey(more[i]))
    && e.path == (if keys + more == [] then "(root)" else Join(keys + more, '.'))
    && Follow(Some(v), more).Some? && Follow(Some(v), more).value.JArr?
    && Follow(Some(v), more).value.items != []
    && e.sampleItem == Follow(Some(v), more).value.items[0]
    && e.properties == PropertiesOf(e.sampleItem)
  }

  /** What is found below a member is found below its object, one key further. */
  lemma FoundBelowMember(v: Json, i: nat, keys: seq<string>, e: ArrayInfo, more: seq<string>)
    requires v.JObj? && i < |v.members| && PlainKeys(v)
    requires FoundAt(v.members[i].value, keys + [v.members[i].key], e, more)
    ensures FoundAt(v, keys, e, [v.members[i].key] + more)
  {
    var m := v.members[i];
    var more' := [m.key] + more;
    assert keys + more' == keys + [m.key] + more;
    assert MemberValue(v.members, m.key) == Some(m.value);
    assert more'[1..] == more;
  }

  /** An entry that is not v's own array comes from the analysis of one of v's members. */
  lemma AnalyzedBelow(v: Json, path: string, e: ArrayInfo)
    requires e in AnalyzeJsonStructure(v, path)
    requires !(v.JArr? && |v.items| > 0 && e == ArrayInfo(if path != "" then path else "(root)", PropertiesOf(v.items[0]), v.items[0]))
    ensures v.JObj?
    ensures exists i :: 0 <= i < |v.members| && e in AnalyzeJsonStructure(v.members[i].value, ChildPath(path, v.members[i].key))
  {
    var ss := seq(|v.members|, i requires 0 <= i < |v.members| =>
                AnalyzeJsonStructure(v.members[i].value, ChildPath(path, v.members[i].key)));
    assert e in Concat(ss);
    var i :| 0 <= i < |ss| && e in ss[i];
  }

  /**
   * Every entry of the analysis of v, started at the path of keys, is a
   * non-empty array found by following some more keys from v; it reports
   * that array's first item and the item's properties.
   */
  lemma {:induction false} AnalyzedEntryIsArray(v: Json, keys: seq<string>, e: ArrayInfo)
    requires PlainKeys(v) && forall i :: 0 <= i < |keys| ==> PlainKey(keys[i])
    requires e in AnalyzeJsonStructure(v, Join(keys, '.'))
    ensures exists more :: FoundAt(v, keys, e, more)
    decreases v
  {
    var path := Join(keys, '.');
    if v.JArr? && |v.items| > 0 && e == ArrayInfo(if path != "" then path else "(root)", PropertiesOf(v.items[0]), v.items[0]) {
      FoundHere(v, keys, e);
    } else {
      AnalyzedBelow(v, path, e);
      var i :| 0 <= i < |v.members| && e in AnalyzeJsonStructure(v.members[i].value, ChildPath(path, v.members[i].key));
      var m := v.members[i];
      MemberStep(v, keys, i);
      AnalyzedEntryIsArray(m.value, keys + [m.key], e);
      var more :| FoundAt(m.value, keys + [m.key], e, more);
      FoundBelowMember(v, i, keys, e, more);
    }
  }

  /** v's own array is found by following no keys. */
  lemma FoundHere(v: Json, keys: seq<string>, e: ArrayInfo)
    requires forall i :: 0 <= i < |keys| ==> PlainKey(keys[i])
    requires v.JArr? && |v.items| > 0
    requires e == ArrayInfo(if Join(keys, '.') != "" then Join(keys, '.') else "(root)", PropertiesOf(v.items[0]), v.items[0])
    ensures FoundAt(v, keys, e, [])
  {
    JoinOfPlainKeys(keys);
    var more: seq<string> := [];
    assert keys + more == keys;
    assert Follow(Some(v), more) == Some(v);
  }

  /** One step down into a member: its value has plain keys and its path is one key longer. */
  lemma MemberStep(v: Json, keys: seq<string>, i: nat)
    requires PlainKeys(v) && forall k :: 0 <= k < |keys| ==> PlainKey(keys[k])
    requires v.JObj? && i < |v.members|
    ensures PlainKeys(v.members[i].value)
    ensures forall k :: 0 <= k < |keys + [v.members[i].key]| ==> PlainKey((keys + [v.members[i].key])[k])
    ensures ChildPath(Join(keys, '.'), v.members[i].key) == Join(keys + [v.members[i].key], '.')
  {
    ChildPathOfJoin(keys, v.members[i].key);
  }

  /**
   * Each entry analyzeJsonStructure reports from the top is a non-empty
   * array that getValueAtPath finds at the entry's path ("(root)" being the
   * value itself), with that array's first item as the sample.
   */
  lemma AnalyzedPathsLeadToArrays(obj: Json, e: ArrayInfo)
    requires PlainKeys(obj)
    requires e in AnalyzeJsonStructure(obj, "")
    ensures var at := GetValueAtPath(obj, if e.path == "(root)" then "" else e.path);
            && at.Some? && at.value.JArr? && at.value.items != []
            && at.value.items[0] == e.sampleItem
            && e.properties == PropertiesOf(e.sampleItem)
  {
    var keys: seq<string> := [];
    assert Join(keys, '.') == "";
    AnalyzedEntryIsArray(obj, keys, e);
    var more :| FoundAt(obj, keys, e, more);
    assert keys + more == more;
    if more != [] {
      JoinOfPlainKeys(more);
      SplitJoin(more, '.');
    }
  }

  /** keys lead from v through object members only, the way the analysis descends. */
  predicate ThroughObjects(v: Json, keys: seq<string>)
    decreases |keys|
  {
    keys == [] ||
    (v.JObj? && MemberValue(v.members, keys[0]).Some? && ThroughObjects(MemberValue(v.members, keys[0]).value, keys[1..]))
  }

  /** The keys of a walk through objects with plain keys are plain. */
  lemma {:induction false} ThroughObjectsPlain(v: Json, keys: seq<string>)
    requires PlainKeys(v) && ThroughObjects(v, keys)
    ensures forall i :: 0 <= i < |keys| ==> PlainKey(keys[i])
    decreases |keys|
  {
    if keys != [] {
      var i := FindIndex(v.members, (m: Member) => m.key == keys[0]);
      MemberStep(v, [], i);
      ThroughObjectsPlain(v.members[i].value, keys[1..]);
      forall j | 0 <= j < |keys| ensures PlainKey(keys[j]) {
        if j > 0 { assert keys[j] == keys[1..][j - 1]; }
      }
    }
  }

  /** The first step of a walk through objects enters the last member with the key. */
  lemma StepIntoMember(v: Json, keys: seq<string>) returns (i: nat)
    requires ThroughObjects(v, keys) && keys != []
    ensures v.JObj? && i < |v.members| && v.members[i].key == keys[0]
    ensures ThroughObjects(v.members[i].value, keys[1..])
    ensures Follow(Some(v), keys) == Follow(Some(v.members[i].value), keys[1..])
  {
    i := FindLastIndex(v.members, (m: Member) => m.key == keys[0]);
  }

  /** What the analysis of a member reports, the analysis of its object reports too. */
  lemma AnalyzedInMember(v: Json, path: string, i: nat, e: ArrayInfo)
    requires v.JObj? && i < |v.members|
    requires e in AnalyzeJsonStructure(v.members[i].value, ChildPath(path, v.members[i].key))
    ensures e in AnalyzeJsonStructure(v, path)
  {
    var ss := seq(|v.members|, j requires 0 <= j < |v.members| =>
                AnalyzeJsonStructure(v.members[j].value, ChildPath(path, v.members[j].key)));
    assert e in ss[i];
    assert e in Concat(ss);
  }

  /** A non-empty array reports itself under the path of pre, "(root)" for no keys. */
  lemma ArrayAnalyzedHere(v: Json, pre: seq<string>)
    requires forall i :: 0 <= i < |pre| ==> PlainKey(pre[i])
    requires v.JArr? && v.items != []
    ensures EntryAt(pre, v.items) in AnalyzeJsonStructure(v, Join(pre, '.'))
  {
    JoinOfPlainKeys(pre);
  }

  /** The entry the analysis reports for the non-empty array items at the path of keys. */
  function EntryAt(keys: seq<string>, items: seq<Json>): ArrayInfo
    requires items != []
  {
    ArrayInfo(if keys == [] then "(root)" else Join(keys, '.'), PropertiesOf(items[0]), items[0])
  }

  lemma KeysAfterHead(pre: seq<string>, keys: seq<string>)
    requires keys != []
    ensures (pre + [keys[0]]) + keys[1..] == pre + keys
  {
  }

  /**
   * A non-empty array reached from v through object members is reported by
   * the analysis of v started at the path of pre, under the path of pre
   * followed by the keys.
   */
  lemma {:induction false} ReachedIsAnalyzed(v: Json, pre: seq<string>, keys: seq<string>, items: seq<Json>)
    requires PlainKeys(v) && forall i :: 0 <= i < |pre| ==> PlainKey(pre[i])
    requires ThroughObjects(v, keys) && Follow(Some(v), keys) == Some(JArr(items)) && items != []
    ensures EntryAt(pre + keys, items) in AnalyzeJsonStructure(v, Join(pre, '.'))
    decreases |keys|
  {
    if keys == [] {
      assert pre + keys == pre;
      assert Follow(Some(v), keys) == Some(v);
      ArrayAnalyzedHere(v, pre);
    } else {
      var i := StepIntoMember(v, keys);
      MemberStep(v, pre, i);
      ReachedIsAnalyzed(v.members[i].value, pre + [keys[0]], keys[1..], items);
      KeysAfterHead(pre, keys);
      AnalyzedInMember(v, Join(pre, '.'), i, EntryAt(pre + keys, items));
    }
  }

  /**
   * Conversely to AnalyzedPathsLeadToArrays: every non-empty array that
   * getValueAtPath finds at a path through objects is reported from the top
   * under that path ("(root)" for the value itself), with its first item.
   */
  lemma ArraysAtPathsAreAnalyzed(obj: Json, keys: seq<string>, items: seq<Json>)
    requires PlainKeys(obj) && ThroughObjects(obj, keys)
    requires GetValueAtPath(obj, Join(keys, '.')) == Some(JArr(items)) && items != []
    ensures EntryAt(keys, items) in AnalyzeJsonStructure(obj, "")
  {
    ThroughObjectsPlain(obj, keys);
    JoinOfPlainKeys(keys);
    if keys != [] {
      SplitJoin(keys, '.');
    }
    var pre: seq<string> := [];
    assert Join(pre, '.') == "" && pre + keys == keys;
    ReachedIsAnalyzed(obj, pre, keys, items);
  }

  // ---------------------------------------------------------------------------
  // The store
  // ---------------------------------------------------------------------------

  /** `{ ...chartConfig, ...config }`. */
  function ApplyConfigPatch(c: ChartConfig, p: ConfigPatch): (r: ChartConfig)
    ensures p == ConfigPatch(None, None, None) ==> r == c
    ensures p.title.Some? ==> r.title == p.title.value
    ensures p.title.None? ==> r.title == c.title
    ensures p.xAxisLabel.Some? ==> r.xAxisLabel == p.xAxisLabel.value
    ensures p.xAxisLabel.None? ==> r.xAxisLabel == c.xAxisLabel
    ensures p.yAxisLabel.Some? ==> r.yAxisLabel == p.yAxisLabel.value
    ensures p.yAxisLabel.None? ==> r.yAxisLabel == c.yAxisLabel
  {
    ChartConfig(p.title.GetOr(c.title), p.xAxisLabel.GetOr(c.xAxisLabel), p.yAxisLabel.GetOr(c.yAxisLabel))
  }

  /** How the request of fetchLayerData ended. */
  datatype FetchOutcome =
    | Fetched(data: Json)                        // a response with ok set, parsed as JSON
    | HttpFailure(status: int, statusText: string) // a response without ok
    | Thrown(message: Option<string>)            // fetch or parsing threw; None when not an Error

  /** The error message the catch block records. */
  function FailureMessage(outcome: FetchOutcome): (r: string)
    requires !outcome.Fetched?
    ensures outcome.HttpFailure? ==> IsPrefix("HTTP ", r)
    ensures outcome.HttpFailure? ==> r == "HTTP " + IntToString(outcome.status) + ": " + outcome.statusText
    ensures outcome.Thrown? && outcome.message.Some? ==> r == outcome.message.value
    ensures outcome.Thrown? && outcome.message.None? ==> r == "Failed to fetch data"
  {
    match outcome
    case HttpFailure(status, text) => "HTTP " + IntToString(status) + ": " + text
    case Thrown(message) => message.GetOr("Failed to fetch data")
  }

  /**
   * An HTTP failure's message reads back: the status's numeral up to the
   * first colon, and the status text after the colon and a space.
   */
  lemma HttpFailureMessageParts(status: int, statusText: string)
    ensures var r := FailureMessage(HttpFailure(status, statusText));
            var k := FirstIndexOf(r, ':');
            && k == 5 + |IntToString(status)|
            && r[5..k] == IntToString(status)
            && r[k + 2..] == statusText
  {
    var n := IntToString(status);
    var r := FailureMessage(HttpFailure(status, statusText));
    var m := 5 + |n|;
    assert r == "HTTP " + n + ": " + statusText;
    assert r[m] == ':';
    assert r[..m] == "HTTP " + n;
    assert ':' !in n by {
      forall i | 0 <= i < |n| ensures n[i] != ':' {
        if status < 0 && i > 0 {
          assert n[1..][i - 1] == n[i];
        }
      }
    }
    assert ':' !in r[..m];
    var k := FirstIndexOf(r, ':');
    assert r[5..m] == n;
    assert r[m + 2..] == statusText;
  }

  /** The patch fetchLayerData applies before the request. */
  function StartFetch(endpoint: string): LayerPatch {
    LayerPatch(None, Some(endpoint), Some(None), None, None, Some(true), Some(None))
  }

  /** The patch fetchLayerData applies once the request has ended. */
  function FinishFetch(outcome: FetchOutcome): LayerPatch {
    match outcome
    case Fetched(data) => LayerPatch(None, None, Some(Some(data)), None, None, Some(false), Some(None))
    case _ => LayerPatch(None, None, None, None, None, Some(false), Some(Some(FailureMessage(outcome))))
  }

  /** After a fetch the layer is not loading, and holds either the data or an error. */
  lemma FetchSettles(l: Layer, endpoint: string, outcome: FetchOutcome)
    ensures var r := ApplyPatch(ApplyPatch(l, StartFetch(endpoint)), FinishFetch(outcome));
            && r.id == l.id && r.endpoint == endpoint && !r.isLoading
            && (outcome.Fetched? ==> r.response == Some(outcome.data) && r.error.None?)
            && (!outcome.Fetched? ==> r.response.None? && r.error == Some(FailureMessage(outcome)))
            && r.name == l.name && r.mapping == l.mapping && r.visible == l.visible
  {
  }

  /** While its request is pending a layer is loading, with no response and no error. */
  lemma FetchStarts(l: Layer, endpoint: string)
    ensures var r := ApplyPatch(l, StartFetch(endpoint));
            && r.id == l.id && r.endpoint == endpoint && r.isLoading
            && r.response.None? && r.error.None?
            && r.name == l.name && r.mapping == l.mapping && r.visible == l.visible
  {
  }

  /**
   * Two fetches of one layer whose first response arrives after the second
   * request started: the layer shows the first response under the second
   * endpoint, and is no longer loading though the second request is pending.
   */
  lemma StaleResponseWins(l: Layer, first: string, second: string, data: Json)
    ensures var r := ApplyPatch(ApplyPatch(ApplyPatch(l, StartFetch(first)), StartFetch(second)), FinishFetch(Fetched(data)));
            r.endpoint == second && r.response == Some(data) && !r.isLoading
  {
  }

  /** A layer as buildChartPayload saves it. */
  datatype SavedLayer = SavedLayer(id: string, name: string, endpoint: string, mapping: Mapping, visible: bool)

  /** buildChartPayload without its creation timestamp. */
  datatype Payload = Payload(chartType: string, config: ChartConfig, layers: seq<SavedLayer>)

  function Saved(l: Layer): SavedLayer {
    SavedLayer(l.id, l.name, l.endpoint, l.mapping, l.visible)
  }

  /** The payload keeps the layers' order and their saved fields. */
  function BuildChartPayload(chartType: string, config: ChartConfig, layers: seq<Layer>): (r: Payload)
    ensures r.chartType == chartType && r.config == config
    ensures |r.layers| == |layers|
    ensures forall i :: 0 <= i < |layers| ==>
              r.layers[i] == SavedLayer(layers[i].id, layers[i].name, layers[i].endpoint, layers[i].mapping, layers[i].visible)
  {
    Payload(chartType, config, Map(layers, Saved))
  }

  /**
   * The chart builder state. Layer ids come from a random generator, which
   * is a parameter here: each new id is supposed distinct from the others.
   */
  class Builder {
    var chartType: string
    var layers: seq<Layer>
    var chartConfig: ChartConfig

    /** At least one layer, and no two layers with the same id. */
    ghost predicate Valid()
      reads this
    {
      |layers| >= 1 && UniqueIds(layers)
    }

    constructor(freshId: string)
      ensures chartType == DefaultChartType && chartConfig == DefaultConfig
      ensures layers == [EmptyLayer(freshId, [])]
      ensures layers[0].name == "Layer 1" && layers[0].mapping.color == LayerColors[0]
      ensures Valid()
    {
      chartType := DefaultChartType;
      layers := [EmptyLayer(freshId, [])];
      chartConfig := DefaultConfig;
      assert FindIndex(LayerColors, (c: string) => c !in Colors([])) == 0;
      assert NatToString(1) == "1";
    }

    /** getVisibleLayers. */
    function GetVisibleLayers(): (r: seq<Layer>)
      reads this
      ensures IsSubsequence(r, layers)
      ensures forall l :: l in r <==> l in layers && l.visible
    {
      FilterIsSubsequence(layers, (l: Layer) => l.visible);
      VisibleLayers(layers)
    }

    /** getLayer. */
    function GetLayer(id: string): (r: Option<Layer>)
      reads this
      ensures r.None? <==> forall i :: 0 <= i < |layers| ==> layers[i].id != id
      ensures r.Some? ==> r.value in layers && r.value.id == id
      ensures UniqueIds(layers) ==> forall i :: 0 <= i < |layers| && layers[i].id == id ==> r == Some(layers[i])
    {
      Find(layers, HasId(id))
    }

    method SetChartType(t: string)
      modifies this
      ensures chartType == t && layers == old(layers) && chartConfig == old(chartConfig)
    {
      chartType := t;
    }

    method SetChartConfig(p: ConfigPatch)
      modifies this
      ensures chartConfig == ApplyConfigPatch(old(chartConfig), p)
      ensures chartType == old(chartType) && layers == old(layers)
    {
      chartConfig := ApplyConfigPatch(chartConfig, p);
    }

    /** addLayer: appends a new empty layer and returns its id. */
    method AddLayer(freshId: string) returns (id: string)
      requires Valid()
      requires forall i :: 0 <= i < |layers| ==> layers[i].id != freshId
      modifies this
      ensures Valid()
      ensures id == freshId && layers == old(layers) + [EmptyLayer(freshId, old(layers))]
      ensures |old(layers)| < |LayerColors| ==> layers[|layers| - 1].mapping.color !in Colors(old(layers))
      ensures chartType == old(chartType) && chartConfig == old(chartConfig)
    {
      if |layers| < |LayerColors| {
        NextColorIsFresh(layers);
      }
      var l := EmptyLayer(freshId, layers);
      layers := layers + [l];
      id := l.id;
    }

    /** removeLayer: the last remaining layer is kept. */
    method RemoveLayer(id: string)
      requires Valid()
      modifies this
      ensures Valid()
      ensures layers == if |old(layers)| <= 1 then old(layers) else Filter(old(layers), NotId(id))
      ensures chartType == old(chartType) && chartConfig == old(chartConfig)
    {
      if |layers| <= 1 {
        return;
      }
      RemoveDropsAtMostOne(layers, id);
      RemoveKeepsIdsDistinct(layers, id);
      layers := Filter(layers, NotId(id));
    }

    method UpdateLayer(id: string, p: LayerPatch)
      requires Valid()
      modifies this
      ensures Valid()
      ensures layers == UpdateWhere(old(layers), id, Patched(p))
      ensures chartType == old(chartType) && chartConfig == old(chartConfig)
    {
      UpdateKeepsIds(layers, id, Patched(p));
      layers := UpdateWhere(layers, id, Patched(p));
    }

    method UpdateLayerMapping(id: string, p: MappingPatch)
      requires Valid()
      modifies this
      ensures Valid()
      ensures layers == UpdateWhere(old(layers), id, MappingPatched(p))
      ensures chartType == old(chartType) && chartConfig == old(chartConfig)
    {
      UpdateKeepsIds(layers, id, MappingPatched(p));
      layers := UpdateWhere(layers, id, MappingPatched(p));
    }

    method ToggleLayerVisibility(id: string)
      requires Valid()
      modifies this
      ensures Valid()
      ensures layers == UpdateWhere(old(layers), id, VisibilityToggled())
      ensures chartType == old(chartType) && chartConfig == old(chartConfig)
    {
      UpdateKeepsIds(layers, id, VisibilityToggled());
      layers := UpdateWhere(layers, id, VisibilityToggled());
    }

    method MoveLayer(id: string, direction: string)
      requires Valid()
      modifies this
      ensures Valid()
      ensures layers == Moved(old(layers), id, direction)
      ensures chartType == old(chartType) && chartConfig == old(chartConfig)
    {
      MovedKeepsIds(layers, id, direction);
      layers := Moved(layers, id, direction);
    }

    /**
     * fetchLayerData up to its await: the layer takes the endpoint and is
     * loading, with no response and no error.
     */
    method StartLayerFetch(id: string, endpoint: string)
      requires Valid()
      modifies this
      ensures Valid()
      ensures layers == UpdateWhere(old(layers), id, Patched(StartFetch(endpoint)))
      ensures chartType == old(chartType) && chartConfig == old(chartConfig)
    {
      UpdateLayer(id, StartFetch(endpoint));
    }

    /**
     * fetchLayerData after its await, given the request's outcome. Other calls
     * may have run in between; a layer removed meanwhile is left alone.
     */
    method FinishLayerFetch(id: string, outcome: FetchOutcome)
      requires Valid()
      modifies this
      ensures Valid()
      ensures layers == UpdateWhere(old(layers), id, Patched(FinishFetch(outcome)))
      ensures chartType == old(chartType) && chartConfig == old(chartConfig)
    {
      UpdateLayer(id, FinishFetch(outcome));
    }

    function ChartPayload(): (r: Payload)
      reads this
      ensures r == BuildChartPayload(chartType, chartConfig, layers)
    {
      BuildChartPayload(chartType, chartConfig, layers)
    }

    /** resetChartBuilder. */
    method ResetChartBuilder(freshId: string)
      modifies this
      ensures chartType == DefaultChartType && chartConfig == DefaultConfig
      ensures layers == [EmptyLayer(freshId, [])]
      ensures Valid()
    {
      chartType := DefaultChartType;
      layers := [EmptyLayer(freshId, [])];
      chartConfig := DefaultConfig;
    }
  }
}
