/**
 * The value utilities: JSON serialisation with the Map replacer and reviver,
 * the two clones, the two equality tests and the dotted-path getter
 * (lib/core/Util.js, src/core/Util.ts).
 *
 * `JSON.stringify` is modelled as encoding to a JSON tree and `JSON.parse` as
 * decoding such a tree, so two encodings are compared as trees rather than as
 * text.
 */
module Util {
  import opened Wrappers
  import opened Values

  datatype Json =
    | JNull
    | JBool(b: bool)
    | JNum(n: int)
    | JStr(s: string)
    | JArr(items: seq<Json>)
    | JObj(members: seq<JMember>)

  datatype JMember = JMember(key: string, value: Json)

  /** The text `Date.prototype.toJSON` yields; rendered here as the millisecond count. */
  function DateText(time: int): string
  {
    IntToString(time)
  }

  // ---------------------------------------------------------------------------
  // JSON.stringify(value, maps ? stringifyMapReplacer : undefined)
  // ---------------------------------------------------------------------------

  /**
   * `JSON.stringify` as a tree; `None` is the `undefined` it returns for
   * `undefined` and functions. With `maps` the Map replacer
   * (lib/core/Util.js:148-158) turns a Map into `{dataType: 'Map', value: entries}`;
   * without it a Map has no enumerable own properties and becomes `{}`.
   */
  function Encode(v: Value, maps: bool): Option<Json>
  {
    match v
    case Undefined => None
    case Function(_) => None
    case Null => Some(JNull)
    case Bool(b) => Some(JBool(b))
    case Num(n) => Some(JNum(n))
    case Str(s) => Some(JStr(s))
    case Date(t) => Some(JStr(DateText(t)))
    case Arr(items, _) => Some(JArr(EncodeItems(items, maps)))
    case Obj(ps) => Some(JObj(EncodeFields(ps, maps) + EncodeShadows(ps, maps)))
    case MapV(es) => if maps then Some(MapObject(EncodeEntries(es, maps))) else Some(JObj([]))
  }

  /** The object the replacer puts in place of a Map. */
  function MapObject(pairs: seq<Json>): Json
  {
    JObj([JMember("dataType", JStr("Map")), JMember("value", JArr(pairs))])
  }

  /** Inside an array, `undefined` and functions are written as `null`. */
  function OrNull(o: Option<Json>): Json
  {
    if o.Some? then o.value else JNull
  }

  function EncodeItems(items: seq<Value>, maps: bool): (r: seq<Json>)
    ensures |r| == |items|
  {
    if items == [] then [] else [OrNull(Encode(items[0], maps))] + EncodeItems(items[1..], maps)
  }

  /** Properties whose value encodes to `undefined` are omitted. */
  function EncodeFields(ps: seq<Prop>, maps: bool): seq<JMember>
  {
    if ps == [] then []
    else
      (match Encode(ps[0].value, maps)
       case None => []
       case Some(j) => [JMember(ps[0].key, j)])
      + EncodeFields(ps[1..], maps)
  }

  function EncodeShadows(ps: seq<Prop>, maps: bool): seq<JMember>
  {
    if ps == [] then []
    else
      (if !ps[0].watched then []
       else match Encode(ps[0].value, maps)
         case None => []
         case Some(j) => [JMember(ShadowKey(ps[0].key), j)])
      + EncodeShadows(ps[1..], maps)
  }

  /** `Array.from(map.entries())`: one `[key, value]` array per entry, in order. */
  function EncodeEntries(es: seq<Entry>, maps: bool): (r: seq<Json>)
    ensures |r| == |es|
  {
    if es == [] then [] else [EncodeEntry(es[0], maps)] + EncodeEntries(es[1..], maps)
  }

  function EncodeEntry(e: Entry, maps: bool): Json
  {
    JArr([OrNull(Encode(e.key, maps)), OrNull(Encode(e.value, maps))])
  }

  /** `stringify` (lib/core/Util.js:10-12). */
  function Stringify(v: Value): Option<Json>
  {
    Encode(v, true)
  }

  // ---------------------------------------------------------------------------
  // JSON.parse(text, stringifyMapReviver)
  // ---------------------------------------------------------------------------

  /**
   * `JSON.parse` with the Map reviver (lib/core/Util.js:166-173): the reviver
   * runs bottom-up, and every object whose `dataType` is the string `'Map'`
   * becomes `new Map(object.value)`. Member names of the tree are taken to be
   * distinct, as they are in any tree `Encode` produces from a real object.
   */
  function Decode(j: Json): Result<Value, Error>
  {
    match j
    case JNull => Ok(Null)
    case JBool(b) => Ok(Bool(b))
    case JNum(n) => Ok(Num(n))
    case JStr(s) => Ok(Str(s))
    case JArr(items) =>
      (match DecodeItems(items)
       case Err(e) => Err(e)
       case Ok(vs) => Ok(Arr(vs, false)))
    case JObj(ms) =>
      (match DecodeMembers(ms)
       case Err(e) => Err(e)
       case Ok(ps) => Revive(Obj(ps)))
  }

  function DecodeItems(items: seq<Json>): (r: Result<seq<Value>, Error>)
    ensures r.Ok? ==> |r.value| == |items|
  {
    if items == [] then Ok([])
    else
      match Decode(items[0])
      case Err(e) => Err(e)
      case Ok(v) =>
        match DecodeItems(items[1..])
        case Err(e) => Err(e)
        case Ok(vs) => Ok([v] + vs)
  }

  function DecodeMembers(ms: seq<JMember>): Result<seq<Prop>, Error>
  {
    if ms == [] then Ok([])
    else
      match Decode(ms[0].value)
      case Err(e) => Err(e)
      case Ok(v) =>
        match DecodeMembers(ms[1..])
        case Err(e) => Err(e)
        case Ok(ps) => Ok([Prop(ms[0].key, v, false)] + ps)
  }

  /** The reviver applied to a freshly parsed object. */
  function Revive(o: Value): Result<Value, Error>
  {
    if GetProp(o, "dataType") == Str("Map") then MapFromIterable(GetProp(o, "value")) else Ok(o)
  }

  /**
   * `new Map(source)`: `undefined` and `null` give an empty map; an iterable
   * must yield objects, whose `[0]` and `[1]` become key and value.
   */
  function MapFromIterable(source: Value): Result<Value, Error>
  {
    match source
    case Undefined => Ok(MapV([]))
    case Null => Ok(MapV([]))
    case Arr(items, _) =>
      (match EntriesFrom(items)
       case Err(e) => Err(e)
       case Ok(es) => Ok(MapV(es)))
    case MapV(es) => Ok(MapV(es))
    case Str(s) => if s == "" then Ok(MapV([])) else Err(TypeError("iterator value is not an entry object"))
    case _ => Err(TypeError("object is not iterable"))
  }

  /** The entries `new Map` builds from an array, adding the items left to right. */
  function EntriesFrom(items: seq<Value>): Result<seq<Entry>, Error>
  {
    if items == [] then Ok([])
    else
      match EntriesFrom(items[..|items| - 1])
      case Err(e) => Err(e)
      case Ok(es) =>
        var item := items[|items| - 1];
        if !IsInstance(item) then Err(TypeError("iterator value is not an entry object"))
        else Ok(MapSet(es, GetProp(item, "0"), GetProp(item, "1")))
  }

  /** Position of the entry a `Map` would treat as having this key. */
  function KeyIndex(es: seq<Entry>, k: Value): (r: Option<nat>)
    ensures r.None? ==> forall i :: 0 <= i < |es| ==> !SameKey(es[i].key, k)
    ensures r.Some? ==> r.value < |es| && SameKey(es[r.value].key, k)
  {
    if es == [] then None
    else if SameKey(es[0].key, k) then Some(0)
    else match KeyIndex(es[1..], k)
      case None => None
      case Some(i) => Some(i + 1)
  }

  /** `map.set(k, v)`: an existing key keeps its position and takes the new value; a new key goes last. */
  function MapSet(es: seq<Entry>, k: Value, v: Value): (r: seq<Entry>)
    ensures KeyIndex(es, k).None? ==> r == es + [Entry(k, v)]
    ensures KeyIndex(es, k).Some? ==> |r| == |es| && r[KeyIndex(es, k).value].value == v
  {
    match KeyIndex(es, k)
    case None => es + [Entry(k, v)]
    case Some(i) => es[i := Entry(es[i].key, v)]
  }

  /** `parseJsonString` (lib/core/Util.js:19-21). */
  function ParseJson(j: Json): Result<Value, Error>
  {
    Decode(j)
  }

  // ---------------------------------------------------------------------------
  // shallowClone, shallowEquals (lib/core/Util.js:29-44)
  // ---------------------------------------------------------------------------

  /**
   * `shallowClone`: `null` for a falsy value, else `parse(stringify(v))`;
   * parsing the `undefined` that `stringify` gives for a function throws.
   */
  function ShallowClone(v: Value): Result<Value, Error>
  {
    if !Truthy(v) then Ok(Null)
    else match Stringify(v)
      case None => Err(SyntaxError)
      case Some(j) => ParseJson(j)
  }

  /** `shallowEquals`: the two map-aware encodings are equal. */
  predicate ShallowEquals(a: Value, b: Value)
  {
    Stringify(a) == Stringify(b)
  }

  // ---------------------------------------------------------------------------
  // deepClone (lib/core/Util.js:52-92, src/core/Util.ts:7-50)
  // ---------------------------------------------------------------------------

  /**
   * `deepClone`: primitives and functions are returned as they are; dates,
   * arrays, Maps and objects are copied into fresh plain values. An object is
   * copied through its own enumerable keys, so an observed object's shadow keys
   * become ordinary properties of the copy. A Map is copied entry by entry with
   * `set`; the keys of a real Map are distinct, so the entries keep their order.
   */
  function DeepClone(v: Value): Value
  {
    match v
    case Arr(items, _) => Arr(CloneItems(items), false)
    case Obj(ps) => Obj(CloneFields(ps) + CloneShadows(ps))
    case MapV(es) => MapV(CloneEntries(es))
    case _ => v
  }

  function CloneItems(items: seq<Value>): (r: seq<Value>)
    ensures |r| == |items|
    ensures forall i :: 0 <= i < |items| ==> r[i] == DeepClone(items[i])
  {
    if items == [] then [] else [DeepClone(items[0])] + CloneItems(items[1..])
  }

  function CloneFields(ps: seq<Prop>): (r: seq<Prop>)
    ensures |r| == |ps|
    ensures forall i :: 0 <= i < |ps| ==> r[i] == Prop(ps[i].key, DeepClone(ps[i].value), false)
  {
    if ps == [] then [] else [Prop(ps[0].key, DeepClone(ps[0].value), false)] + CloneFields(ps[1..])
  }

  function CloneShadows(ps: seq<Prop>): seq<Prop>
  {
    if ps == [] then []
    else (if ps[0].watched then [Prop(ShadowKey(ps[0].key), DeepClone(ps[0].value), false)] else [])
         + CloneShadows(ps[1..])
  }

  function CloneEntries(es: seq<Entry>): (r: seq<Entry>)
    ensures |r| == |es|
    ensures forall i :: 0 <= i < |es| ==> r[i] == CloneEntry(es[i])
  {
    if es == [] then [] else [CloneEntry(es[0])] + CloneEntries(es[1..])
  }

  function CloneEntry(e: Entry): Entry
  {
    Entry(DeepClone(e.key), DeepClone(e.value))
  }

  /** A value with no observer machinery: nothing watched, no patched array. */
  predicate Plain(v: Value)
  {
    match v
    case Arr(items, w) => !w && forall i :: 0 <= i < |items| ==> Plain(items[i])
    case Obj(ps) => forall i :: 0 <= i < |ps| ==> !ps[i].watched && Plain(ps[i].value)
    case MapV(es) => forall i :: 0 <= i < |es| ==> Plain(es[i].key) && Plain(es[i].value)
    case _ => true
  }

  // ---------------------------------------------------------------------------
  // deepEquals (lib/core/Util.js:100-137)
  // ---------------------------------------------------------------------------

  /**
   * `deepEquals`, in the order the source tests: `typeof`, then the encodings,
   * then arrays element by element, then Maps by size, key sequence and value
   * sequence, then objects one-directionally (each own key of `a` must be an
   * own key of `b` with a deep-equal value), and otherwise `===`.
   * With `datesByTime` two dates are compared by their time before the object
   * branch, which otherwise finds no own keys on a date and answers true.
   */
  function DeepEqualsWith(a: Value, b: Value, datesByTime: bool): bool
  {
    if TypeOf(a) != TypeOf(b) then false
    else if ShallowEquals(a, b) then true
    else if a.Arr? && b.Arr? then |a.items| == |b.items| && ItemsEqual(a.items, b.items, datesByTime)
    else if a.MapV? && b.MapV? then
      |a.entries| == |b.entries|
      && (ShallowEquals(Arr(EntryKeys(a.entries), false), Arr(EntryKeys(b.entries), false))
          || EntryKeysEqual(a.entries, b.entries, datesByTime))
      && (ShallowEquals(Arr(EntryValues(a.entries), false), Arr(EntryValues(b.entries), false))
          || EntryValuesEqual(a.entries, b.entries, datesByTime))
    else if datesByTime && a.Date? && b.Date? then a.time == b.time
    else if IsInstance(a) && IsInstance(b) then
      // the object branch: `for (key in a) if (a.hasOwnProperty(key)) ...`
      match a
      case Obj(ps) => FieldsMatch(ps, b, datesByTime) && ShadowsMatch(ps, b, datesByTime)
      case Arr(items, _) => IndicesMatch(items, 0, b, datesByTime)
      case _ => true
    else a == b
  }

  /** `deepEquals` exactly as written. */
  predicate DeepEqualsAsWritten(a: Value, b: Value)
  {
    DeepEqualsWith(a, b, false)
  }

  /** `deepEquals` with dates compared by time; the rest of the model uses this one. */
  predicate DeepEquals(a: Value, b: Value)
  {
    DeepEqualsWith(a, b, true)
  }

  function EntryKeys(es: seq<Entry>): (r: seq<Value>)
    ensures |r| == |es| && forall i :: 0 <= i < |es| ==> r[i] == es[i].key
  {
    if es == [] then [] else [es[0].key] + EntryKeys(es[1..])
  }

  function EntryValues(es: seq<Entry>): (r: seq<Value>)
    ensures |r| == |es| && forall i :: 0 <= i < |es| ==> r[i] == es[i].value
  {
    if es == [] then [] else [es[0].value] + EntryValues(es[1..])
  }

  /** The loop over array elements: every pair at the same index is deep-equal. */
  predicate ItemsEqual(xs: seq<Value>, ys: seq<Value>, datesByTime: bool)
    requires |xs| == |ys|
  {
    xs == [] || (DeepEqualsWith(xs[0], ys[0], datesByTime) && ItemsEqual(xs[1..], ys[1..], datesByTime))
  }

  predicate EntryKeysEqual(xs: seq<Entry>, ys: seq<Entry>, datesByTime: bool)
    requires |xs| == |ys|
  {
    xs == [] || (KeyEqual(xs[0], ys[0], datesByTime) && EntryKeysEqual(xs[1..], ys[1..], datesByTime))
  }

  predicate KeyEqual(x: Entry, y: Entry, datesByTime: bool)
  {
    DeepEqualsWith(x.key, y.key, datesByTime)
  }

  predicate EntryValuesEqual(xs: seq<Entry>, ys: seq<Entry>, datesByTime: bool)
    requires |xs| == |ys|
  {
    xs == [] || (ValueEqual(xs[0], ys[0], datesByTime) && EntryValuesEqual(xs[1..], ys[1..], datesByTime))
  }

  predicate ValueEqual(x: Entry, y: Entry, datesByTime: bool)
  {
    DeepEqualsWith(x.value, y.value, datesByTime)
  }

  predicate FieldsMatch(ps: seq<Prop>, b: Value, datesByTime: bool)
  {
    ps == []
    || (HasOwn(b, ps[0].key) && DeepEqualsWith(ps[0].value, GetProp(b, ps[0].key), datesByTime)
        && FieldsMatch(ps[1..], b, datesByTime))
  }

  predicate ShadowsMatch(ps: seq<Prop>, b: Value, datesByTime: bool)
  {
    ps == []
    || ((!ps[0].watched
         || (HasOwn(b, ShadowKey(ps[0].key)) && DeepEqualsWith(ps[0].value, GetProp(b, ShadowKey(ps[0].key)), datesByTime)))
        && ShadowsMatch(ps[1..], b, datesByTime))
  }

  /** Elements `from`, `from + 1`, ... of an array against the same index keys of `b`. */
  predicate IndicesMatch(items: seq<Value>, from: nat, b: Value, datesByTime: bool)
  {
    items == []
    || (HasOwn(b, NatToString(from)) && DeepEqualsWith(items[0], GetProp(b, NatToString(from)), datesByTime)
        && IndicesMatch(items[1..], from + 1, b, datesByTime))
  }

  // ---------------------------------------------------------------------------
  // get (lib/core/Util.js:140, src/core/Util.ts:53)
  // ---------------------------------------------------------------------------

  /** `s.split(sep)`. */
  function Split(s: string, sep: char): (r: seq<string>)
    ensures |r| >= 1
  {
    if s == [] then [""]
    else
      var rest := Split(s[1..], sep);
      if s[0] == sep then [""] + rest else [[s[0]] + rest[0]] + rest[1..]
  }

  /** `segs.join(sep)`. */
  function Join(segs: seq<string>, sep: char): string
  {
    if segs == [] then "" else if |segs| == 1 then segs[0] else segs[0] + [sep] + Join(segs[1..], sep)
  }

  /** One step of the fold: `r == null ? undefined : r[k]`. */
  function GetStep(r: Value, k: string): Value
  {
    if r.Null? || r.Undefined? then Undefined else GetProp(r, k)
  }

  /** `segs.reduce(GetStep, d)`. */
  function GetPath(d: Value, segs: seq<string>): Value
    decreases segs
  {
    if segs == [] then d else GetPath(GetStep(d, segs[0]), segs[1..])
  }

  /** `get(d, path)`. */
  function Get(d: Value, path: string): Value
  {
    GetPath(d, Split(path, '.'))
  }

  // ---------------------------------------------------------------------------
  // Round trip of the Map replacer and reviver
  // ---------------------------------------------------------------------------

  /**
   * Values that survive `parse(stringify(v))` unchanged: no `undefined`,
   * functions or dates (they are dropped or become strings), nothing the
   * observer added, no object that looks like an encoded Map, and Maps with
   * distinct keys.
   */
  predicate JsonSafe(v: Value)
  {
    match v
    case Null => true
    case Bool(_) => true
    case Num(_) => true
    case Str(_) => true
    case Arr(items, w) => !w && forall i :: 0 <= i < |items| ==> JsonSafe(items[i])
    case Obj(ps) =>
      (forall i :: 0 <= i < |ps| ==> !ps[i].watched && JsonSafe(ps[i].value))
      && Lookup(Fields(ps), "dataType") != Some(Str("Map"))
    case MapV(es) => (forall i :: 0 <= i < |es| ==> EntrySafe(es[i])) && DistinctMapKeys(es)
    case _ => false
  }

  predicate EntrySafe(e: Entry)
  {
    JsonSafe(e.key) && JsonSafe(e.value)
  }

  /** The arrays `[key, value]` the reviver reads a Map back from. */
  function EntryPairs(es: seq<Entry>): (r: seq<Value>)
    ensures |r| == |es| && forall i :: 0 <= i < |es| ==> r[i] == Arr([es[i].key, es[i].value], false)
  {
    if es == [] then [] else [Arr([es[0].key, es[0].value], false)] + EntryPairs(es[1..])
  }

  lemma PairRead(k: Value, v: Value)
    ensures GetProp(Arr([k, v], false), "0") == k && GetProp(Arr([k, v], false), "1") == v
    ensures IsInstance(Arr([k, v], false))
  {
    assert NatToString(0) == "0" && NatToString(1) == "1";
    ArrayIndexRead([k, v], false, 0);
    ArrayIndexRead([k, v], false, 1);
  }

  /** `new Map(Array.from(m.entries()))` rebuilds `m` when its keys are distinct. */
  lemma {:induction false} EntriesFromPairs(es: seq<Entry>)
    requires DistinctMapKeys(es)
    ensures EntriesFrom(EntryPairs(es)) == Ok(es)
  {
    if es != [] {
      var n := |es|;
      var init := es[..n - 1];
      var k, v := es[n - 1].key, es[n - 1].value;
      assert EntryPairs(es) == EntryPairs(init) + [Arr([k, v], false)];
      EntriesFromPairs(init);
      PairRead(k, v);
      EntriesFromLast(EntryPairs(init), Arr([k, v], false), init);
      LastKeyIsNew(es);
      assert init + [Entry(k, v)] == es;
    }
  }

  /** Adding one more item to the source array performs one more `map.set`. */
  lemma EntriesFromLast(items: seq<Value>, item: Value, es: seq<Entry>)
    requires EntriesFrom(items) == Ok(es) && IsInstance(item)
    ensures EntriesFrom(items + [item]) == Ok(MapSet(es, GetProp(item, "0"), GetProp(item, "1")))
  {
    assert (items + [item])[..|items|] == items;
  }

  lemma LastKeyIsNew(es: seq<Entry>)
    requires DistinctMapKeys(es) && es != []
    ensures KeyIndex(es[..|es| - 1], es[|es| - 1].key).None?
  {
  }

  lemma {:induction false} ShadowsOfUnwatched(ps: seq<Prop>, maps: bool)
    requires forall i :: 0 <= i < |ps| ==> !ps[i].watched
    ensures Shadows(ps) == [] && EncodeShadows(ps, maps) == [] && CloneShadows(ps) == []
  {
    if ps != [] {
      ShadowsOfUnwatched(ps[1..], maps);
    }
  }

  /** `parse(stringify(v))` gives `v` back, Maps included (lib/core/Util.js:148-173). */
  lemma {:induction false} RoundTrip(v: Value)
    requires JsonSafe(v)
    ensures Stringify(v).Some? && ParseJson(Stringify(v).value) == Ok(v)
  {
    match v
    case Arr(items, _) =>
      RoundTripItems(items);
    case Obj(ps) =>
      RoundTripObject(ps);
    case MapV(es) =>
      RoundTripMap(es);
    case _ =>
  }

  lemma {:induction false} RoundTripObject(ps: seq<Prop>)
    requires JsonSafe(Obj(ps))
    decreases ps, 1
    ensures Encode(Obj(ps), true) == Some(JObj(EncodeFields(ps, true)))
    ensures Decode(JObj(EncodeFields(ps, true))) == Ok(Obj(ps))
  {
    ShadowsOfUnwatched(ps, true);
    RoundTripFields(ps);
    assert OwnMembers(ps) == Fields(ps);
    assert GetProp(Obj(ps), "dataType") != Str("Map");
    assert EncodeFields(ps, true) + EncodeShadows(ps, true) == EncodeFields(ps, true);
  }

  lemma {:induction false} RoundTripMap(es: seq<Entry>)
    requires forall i :: 0 <= i < |es| ==> EntrySafe(es[i])
    requires DistinctMapKeys(es)
    decreases es, 1
    ensures Encode(MapV(es), true) == Some(MapObject(EncodeEntries(es, true)))
    ensures Decode(MapObject(EncodeEntries(es, true))) == Ok(MapV(es))
  {
    RoundTripEntries(es);
    MapFromPairs(es);
    DecodeMapObject(EncodeEntries(es, true), EntryPairs(es));
  }

  /** `new Map` over the `[key, value]` pairs of distinct keys rebuilds the entries. */
  lemma MapFromPairs(es: seq<Entry>)
    requires DistinctMapKeys(es)
    ensures MapFromIterable(Arr(EntryPairs(es), false)) == Ok(MapV(es))
  {
    EntriesFromPairs(es);
  }

  lemma DecodeMapObject(pairs: seq<Json>, vs: seq<Value>)
    requires DecodeItems(pairs) == Ok(vs)
    ensures Decode(MapObject(pairs)) == MapFromIterable(Arr(vs, false))
  {
    DecodeMapMembers(pairs, vs);
    ReviveMapObject(Arr(vs, false));
  }

  /** The reviver turns `{dataType: 'Map', value: x}` into `new Map(x)`. */
  lemma ReviveMapObject(x: Value)
    ensures Revive(Obj([Prop("dataType", Str("Map"), false), Prop("value", x, false)])) == MapFromIterable(x)
  {
    var ps := [Prop("dataType", Str("Map"), false), Prop("value", x, false)];
    ShadowsOfUnwatched(ps, true);
    var ms := [Member("dataType", Str("Map")), Member("value", x)];
    assert OwnMembers(ps) == ms;
    assert ms[1..] == [Member("value", x)];
    assert Lookup(ms, "dataType") == Some(Str("Map"));
    assert Lookup(ms, "value") == Some(x);
  }

  lemma DecodeMapMembers(pairs: seq<Json>, vs: seq<Value>)
    requires DecodeItems(pairs) == Ok(vs)
    ensures DecodeMembers([JMember("dataType", JStr("Map")), JMember("value", JArr(pairs))])
         == Ok([Prop("dataType", Str("Map"), false), Prop("value", Arr(vs, false), false)])
  {
    var ms := [JMember("dataType", JStr("Map")), JMember("value", JArr(pairs))];
    assert ms[1..] == [JMember("value", JArr(pairs))] && ms[1..][1..] == [];
    assert Decode(JArr(pairs)) == Ok(Arr(vs, false));
    var pv := Prop("value", Arr(vs, false), false);
    assert [pv] + [] == [pv] && [Prop("dataType", Str("Map"), false)] + [pv] == [Prop("dataType", Str("Map"), false), pv];
    assert DecodeMembers(ms[1..]) == Ok([pv]);
  }

  lemma {:induction false} RoundTripItems(items: seq<Value>)
    requires forall i :: 0 <= i < |items| ==> JsonSafe(items[i])
    ensures DecodeItems(EncodeItems(items, true)) == Ok(items)
  {
    if items != [] {
      RoundTrip(items[0]);
      RoundTripItems(items[1..]);
      assert [items[0]] + items[1..] == items;
    }
  }

  lemma {:induction false} RoundTripFields(ps: seq<Prop>)
    requires forall i :: 0 <= i < |ps| ==> !ps[i].watched && JsonSafe(ps[i].value)
    ensures DecodeMembers(EncodeFields(ps, true)) == Ok(ps)
    decreases ps, 0
  {
    if ps != [] {
      RoundTrip(ps[0].value);
      RoundTripFields(ps[1..]);
      assert [Prop(ps[0].key, ps[0].value, false)] + ps[1..] == ps;
    }
  }

  lemma {:induction false} RoundTripEntries(es: seq<Entry>)
    requires forall i :: 0 <= i < |es| ==> EntrySafe(es[i])
    ensures DecodeItems(EncodeEntries(es, true)) == Ok(EntryPairs(es))
    decreases es, 0
  {
    if es != [] {
      RoundTripEntry(es[0]);
      RoundTripEntries(es[1..]);
      assert [Arr([es[0].key, es[0].value], false)] + EntryPairs(es[1..]) == EntryPairs(es);
    }
  }

  lemma {:induction false} RoundTripEntry(e: Entry)
    requires EntrySafe(e)
    ensures Decode(EncodeEntry(e, true)) == Ok(Arr([e.key, e.value], false))
  {
    RoundTrip(e.key);
    RoundTrip(e.value);
    DecodePair(Encode(e.key, true).value, Encode(e.value, true).value, e.key, e.value);
  }

  lemma DecodePair(jk: Json, jv: Json, k: Value, v: Value)
    requires Decode(jk) == Ok(k) && Decode(jv) == Ok(v)
    ensures Decode(JArr([jk, jv])) == Ok(Arr([k, v], false))
  {
    var items := [jk, jv];
    assert items[0] == jk && items[1..] == [jv] && [jv][1..] == [];
    assert [v] + [] == [v] && [k] + [v] == [k, v];
    assert DecodeItems([jv]) == Ok([v]);
    assert DecodeItems(items) == Ok([k, v]);
  }

  /** `shallowClone` is the identity on map-safe values and `null` on falsy ones (lib/core/Util.js:29-34). */
  lemma ShallowCloneOfSafe(v: Value)
    requires JsonSafe(v)
    ensures ShallowClone(v) == if Truthy(v) then Ok(v) else Ok(Null)
  {
    if Truthy(v) {
      RoundTrip(v);
    }
  }

  // ---------------------------------------------------------------------------
  // deepClone
  // ---------------------------------------------------------------------------

  /** On a value without observer machinery `deepClone` changes nothing (lib/core/Util.js:52-92). */
  lemma {:induction false} DeepCloneOfPlain(v: Value)
    requires Plain(v)
    ensures DeepClone(v) == v
  {
    match v
    case Arr(items, _) =>
      forall i | 0 <= i < |items| ensures DeepClone(items[i]) == items[i] {
        DeepCloneOfPlain(items[i]);
      }
    case Obj(ps) =>
      ShadowsOfUnwatched(ps, true);
      forall i | 0 <= i < |ps| ensures DeepClone(ps[i].value) == ps[i].value {
        DeepCloneOfPlain(ps[i].value);
      }
      assert CloneFields(ps) == ps;
    case MapV(es) =>
      forall i | 0 <= i < |es| ensures CloneEntry(es[i]) == es[i] {
        CloneEntryOfPlain(es[i]);
      }
    case _ =>
  }

  lemma {:induction false} CloneEntryOfPlain(e: Entry)
    requires Plain(e.key) && Plain(e.value)
    ensures CloneEntry(e) == e
  {
    DeepCloneOfPlain(e.key);
    DeepCloneOfPlain(e.value);
  }

  /** A clone carries no observer machinery, so cloning it again changes nothing. */
  lemma {:induction false} DeepCloneIsPlain(v: Value)
    ensures Plain(DeepClone(v)) && DeepClone(DeepClone(v)) == DeepClone(v)
  {
    match v
    case Arr(items, _) =>
      forall i | 0 <= i < |items| ensures Plain(DeepClone(items[i])) {
        DeepCloneIsPlain(items[i]);
      }
      DeepCloneOfPlain(DeepClone(v));
    case Obj(ps) =>
      forall i | 0 <= i < |ps| ensures Plain(DeepClone(ps[i].value)) {
        DeepCloneIsPlain(ps[i].value);
      }
      CloneShadowsArePlain(ps);
      var r := CloneFields(ps) + CloneShadows(ps);
      forall i | 0 <= i < |r| ensures !r[i].watched && Plain(r[i].value) {
        if i >= |ps| {
          assert r[i] == CloneShadows(ps)[i - |ps|];
        }
      }
      DeepCloneOfPlain(DeepClone(v));
    case MapV(es) =>
      forall i | 0 <= i < |es| ensures Plain(CloneEntry(es[i]).key) && Plain(CloneEntry(es[i]).value) {
        DeepCloneIsPlain(es[i].key);
        DeepCloneIsPlain(es[i].value);
      }
      DeepCloneOfPlain(DeepClone(v));
    case _ =>
  }

  lemma {:induction false} CloneShadowsArePlain(ps: seq<Prop>)
    ensures forall i :: 0 <= i < |CloneShadows(ps)| ==> !CloneShadows(ps)[i].watched && Plain(CloneShadows(ps)[i].value)
  {
    if ps != [] {
      CloneShadowsArePlain(ps[1..]);
      DeepCloneIsPlain(ps[0].value);
      var head := if ps[0].watched then [Prop(ShadowKey(ps[0].key), DeepClone(ps[0].value), false)] else [];
      assert CloneShadows(ps) == head + CloneShadows(ps[1..]);
    }
  }

  lemma {:induction false} EncodeFieldsAppend(a: seq<Prop>, b: seq<Prop>, maps: bool)
    ensures EncodeFields(a + b, maps) == EncodeFields(a, maps) + EncodeFields(b, maps)
  {
    if a == [] {
      assert a + b == b;
    } else {
      assert (a + b)[0] == a[0] && (a + b)[1..] == a[1..] + b;
      EncodeFieldsAppend(a[1..], b, maps);
      var head := match Encode(a[0].value, maps) case None => [] case Some(j) => [JMember(a[0].key, j)];
      assert EncodeFields(a, maps) == head + EncodeFields(a[1..], maps);
      assert EncodeFields(a + b, maps) == head + EncodeFields(a[1..] + b, maps);
    }
  }

  /**
   * A clone encodes exactly like the original, with or without the Map
   * replacer: the shadow keys of an observed object become ordinary keys of
   * the copy in the same place. So `parse(stringify(deepClone(x)))` (src/core/Store.ts:362-363)
   * is `parse(stringify(x))`.
   */
  lemma {:induction false} EncodeDeepClone(v: Value, maps: bool)
    ensures Encode(DeepClone(v), maps) == Encode(v, maps)
  {
    match v
    case Arr(items, _) =>
      EncodeCloneItems(items, maps);
    case Obj(ps) =>
      EncodeFieldsAppend(CloneFields(ps), CloneShadows(ps), maps);
      EncodeCloneFields(ps, maps);
      EncodeCloneShadows(ps, maps);
      CloneShadowsArePlain(ps);
      var r := CloneFields(ps) + CloneShadows(ps);
      forall i | 0 <= i < |r| ensures !r[i].watched {
        if i >= |ps| {
          assert r[i] == CloneShadows(ps)[i - |ps|];
        }
      }
      ShadowsOfUnwatched(r, maps);
      assert DeepClone(v) == Obj(r);
      assert EncodeFields(r, maps) + EncodeShadows(r, maps) == EncodeFields(ps, maps) + EncodeShadows(ps, maps);
    case MapV(es) =>
      EncodeCloneEntries(es, maps);
    case _ =>
  }

  lemma {:induction false} EncodeCloneItems(items: seq<Value>, maps: bool)
    ensures EncodeItems(CloneItems(items), maps) == EncodeItems(items, maps)
  {
    if items != [] {
      EncodeDeepClone(items[0], maps);
      EncodeCloneItems(items[1..], maps);
      assert CloneItems(items)[1..] == CloneItems(items[1..]);
    }
  }

  lemma {:induction false} EncodeCloneFields(ps: seq<Prop>, maps: bool)
    ensures EncodeFields(CloneFields(ps), maps) == EncodeFields(ps, maps)
  {
    if ps != [] {
      EncodeDeepClone(ps[0].value, maps);
      EncodeCloneFields(ps[1..], maps);
      assert CloneFields(ps)[1..] == CloneFields(ps[1..]);
    }
  }

  lemma {:induction false} EncodeCloneShadows(ps: seq<Prop>, maps: bool)
    ensures EncodeFields(CloneShadows(ps), maps) == EncodeShadows(ps, maps)
  {
    if ps != [] {
      EncodeDeepClone(ps[0].value, maps);
      EncodeCloneShadows(ps[1..], maps);
      var head := if ps[0].watched then [Prop(ShadowKey(ps[0].key), DeepClone(ps[0].value), false)] else [];
      EncodeFieldsAppend(head, CloneShadows(ps[1..]), maps);
    }
  }

  lemma {:induction false} EncodeCloneEntries(es: seq<Entry>, maps: bool)
    ensures EncodeEntries(CloneEntries(es), maps) == EncodeEntries(es, maps)
  {
    if es != [] {
      EncodeCloneEntry(es[0], maps);
      EncodeCloneEntries(es[1..], maps);
      assert CloneEntries(es)[1..] == CloneEntries(es[1..]);
    }
  }

  lemma {:induction false} EncodeCloneEntry(e: Entry, maps: bool)
    ensures EncodeEntry(CloneEntry(e), maps) == EncodeEntry(e, maps)
  {
    EncodeDeepClone(e.key, maps);
    EncodeDeepClone(e.value, maps);
  }

  // ---------------------------------------------------------------------------
  // deepEquals
  // ---------------------------------------------------------------------------

  lemma {:induction false} ItemsEqualAll(xs: seq<Value>, ys: seq<Value>, datesByTime: bool)
    requires |xs| == |ys|
    ensures ItemsEqual(xs, ys, datesByTime)
        <==> forall i :: 0 <= i < |xs| ==> DeepEqualsWith(xs[i], ys[i], datesByTime)
  {
    if xs != [] {
      ItemsEqualAll(xs[1..], ys[1..], datesByTime);
      assert forall i :: 1 <= i < |xs| ==> xs[1..][i - 1] == xs[i] && ys[1..][i - 1] == ys[i];
    }
  }

  /**
   * Two arrays are deep-equal exactly when they encode alike or have the same
   * length and are deep-equal index by index (lib/core/Util.js:105-116).
   */
  lemma DeepEqualsArrays(xs: seq<Value>, wx: bool, ys: seq<Value>, wy: bool, datesByTime: bool)
    ensures DeepEqualsWith(Arr(xs, wx), Arr(ys, wy), datesByTime)
        <==> ShallowEquals(Arr(xs, wx), Arr(ys, wy))
             || (|xs| == |ys| && forall i :: 0 <= i < |xs| ==> DeepEqualsWith(xs[i], ys[i], datesByTime))
  {
    if |xs| == |ys| {
      ItemsEqualAll(xs, ys, datesByTime);
    }
  }

  lemma {:induction false} EntryKeysEqualAll(xs: seq<Entry>, ys: seq<Entry>, datesByTime: bool)
    requires |xs| == |ys|
    ensures EntryKeysEqual(xs, ys, datesByTime)
        <==> forall i :: 0 <= i < |xs| ==> DeepEqualsWith(xs[i].key, ys[i].key, datesByTime)
  {
    if xs != [] {
      EntryKeysEqualAll(xs[1..], ys[1..], datesByTime);
      assert forall i :: 1 <= i < |xs| ==> xs[1..][i - 1] == xs[i] && ys[1..][i - 1] == ys[i];
    }
  }

  lemma {:induction false} EntryValuesEqualAll(xs: seq<Entry>, ys: seq<Entry>, datesByTime: bool)
    requires |xs| == |ys|
    ensures EntryValuesEqual(xs, ys, datesByTime)
        <==> forall i :: 0 <= i < |xs| ==> DeepEqualsWith(xs[i].value, ys[i].value, datesByTime)
  {
    if xs != [] {
      EntryValuesEqualAll(xs[1..], ys[1..], datesByTime);
      assert forall i :: 1 <= i < |xs| ==> xs[1..][i - 1] == xs[i] && ys[1..][i - 1] == ys[i];
    }
  }

  /**
   * Two Maps are deep-equal exactly when they encode alike, or have the same
   * size and both their key sequences and their value sequences are deep-equal
   * position by position (lib/core/Util.js:117-124).
   */
  lemma DeepEqualsMaps(xs: seq<Entry>, ys: seq<Entry>, datesByTime: bool)
    ensures DeepEqualsWith(MapV(xs), MapV(ys), datesByTime)
        <==> ShallowEquals(MapV(xs), MapV(ys))
             || (|xs| == |ys|
                 && DeepEqualsWith(Arr(EntryKeys(xs), false), Arr(EntryKeys(ys), false), datesByTime)
                 && DeepEqualsWith(Arr(EntryValues(xs), false), Arr(EntryValues(ys), false), datesByTime))
  {
    if |xs| == |ys| {
      KeyArraysEqual(xs, ys, datesByTime);
      ValueArraysEqual(xs, ys, datesByTime);
    }
  }

  lemma KeyArraysEqual(xs: seq<Entry>, ys: seq<Entry>, datesByTime: bool)
    requires |xs| == |ys|
    ensures DeepEqualsWith(Arr(EntryKeys(xs), false), Arr(EntryKeys(ys), false), datesByTime)
        <==> ShallowEquals(Arr(EntryKeys(xs), false), Arr(EntryKeys(ys), false)) || EntryKeysEqual(xs, ys, datesByTime)
  {
    EntryKeysEqualAll(xs, ys, datesByTime);
    DeepEqualsArrays(EntryKeys(xs), false, EntryKeys(ys), false, datesByTime);
  }

  lemma ValueArraysEqual(xs: seq<Entry>, ys: seq<Entry>, datesByTime: bool)
    requires |xs| == |ys|
    ensures DeepEqualsWith(Arr(EntryValues(xs), false), Arr(EntryValues(ys), false), datesByTime)
        <==> ShallowEquals(Arr(EntryValues(xs), false), Arr(EntryValues(ys), false)) || EntryValuesEqual(xs, ys, datesByTime)
  {
    EntryValuesEqualAll(xs, ys, datesByTime);
    DeepEqualsArrays(EntryValues(xs), false, EntryValues(ys), false, datesByTime);
  }

  /** Each own member of `a` is an own key of `b` holding a deep-equal value. */
  predicate MembersMatch(ms: seq<Member>, b: Value, datesByTime: bool)
  {
    forall i :: 0 <= i < |ms| ==> HasOwn(b, ms[i].key) && DeepEqualsWith(ms[i].value, GetProp(b, ms[i].key), datesByTime)
  }

  lemma {:induction false} FieldsMatchAll(ps: seq<Prop>, b: Value, datesByTime: bool)
    ensures FieldsMatch(ps, b, datesByTime) <==> MembersMatch(Fields(ps), b, datesByTime)
  {
    if ps != [] {
      FieldsMatchAll(ps[1..], b, datesByTime);
      var m := Member(ps[0].key, ps[0].value);
      assert Fields(ps) == [m] + Fields(ps[1..]);
      MembersMatchCons(m, Fields(ps[1..]), b, datesByTime);
    }
  }

  lemma MembersMatchCons(m: Member, ms: seq<Member>, b: Value, datesByTime: bool)
    ensures MembersMatch([m] + ms, b, datesByTime)
            <==> HasOwn(b, m.key) && DeepEqualsWith(m.value, GetProp(b, m.key), datesByTime)
                 && MembersMatch(ms, b, datesByTime)
  {
    var l := [m] + ms;
    assert l[0] == m;
    assert forall i :: 0 <= i < |ms| ==> l[i + 1] == ms[i];
  }

  lemma {:induction false} ShadowsMatchAll(ps: seq<Prop>, b: Value, datesByTime: bool)
    ensures ShadowsMatch(ps, b, datesByTime) <==> MembersMatch(Shadows(ps), b, datesByTime)
  {
    if ps != [] {
      ShadowsMatchAll(ps[1..], b, datesByTime);
      var head := if ps[0].watched then [Member(ShadowKey(ps[0].key), ps[0].value)] else [];
      assert Shadows(ps) == head + Shadows(ps[1..]);
      MembersMatchAppend(head, Shadows(ps[1..]), b, datesByTime);
    }
  }

  lemma MembersMatchAppend(xs: seq<Member>, ys: seq<Member>, b: Value, datesByTime: bool)
    ensures MembersMatch(xs + ys, b, datesByTime) <==> MembersMatch(xs, b, datesByTime) && MembersMatch(ys, b, datesByTime)
  {
    if MembersMatch(xs, b, datesByTime) && MembersMatch(ys, b, datesByTime) {
      forall i | 0 <= i < |xs + ys|
        ensures HasOwn(b, (xs + ys)[i].key) && DeepEqualsWith((xs + ys)[i].value, GetProp(b, (xs + ys)[i].key), datesByTime)
      {
        if i >= |xs| {
          assert (xs + ys)[i] == ys[i - |xs|];
        }
      }
    }
    if MembersMatch(xs + ys, b, datesByTime) {
      forall i | 0 <= i < |xs|
        ensures HasOwn(b, xs[i].key) && DeepEqualsWith(xs[i].value, GetProp(b, xs[i].key), datesByTime)
      {
        assert (xs + ys)[i] == xs[i];
      }
      forall i | 0 <= i < |ys|
        ensures HasOwn(b, ys[i].key) && DeepEqualsWith(ys[i].value, GetProp(b, ys[i].key), datesByTime)
      {
        assert (xs + ys)[|xs| + i] == ys[i];
      }
    }
  }

  /**
   * Two objects that do not encode alike are deep-equal exactly when every own
   * enumerable member of `a`, shadow keys included, is an own key of `b` with a
   * deep-equal value (lib/core/Util.js:125-134). Keys only `b` has are ignored.
   */
  lemma DeepEqualsObjects(ps: seq<Prop>, qs: seq<Prop>, datesByTime: bool)
    ensures DeepEqualsWith(Obj(ps), Obj(qs), datesByTime)
        <==> ShallowEquals(Obj(ps), Obj(qs)) || MembersMatch(OwnMembers(ps), Obj(qs), datesByTime)
  {
    FieldsMatchAll(ps, Obj(qs), datesByTime);
    ShadowsMatchAll(ps, Obj(qs), datesByTime);
    MembersMatchAppend(Fields(ps), Shadows(ps), Obj(qs), datesByTime);
  }

  /** The object comparison is one-directional: `{}` equals `{k: 1}` but not the other way round. */
  lemma DeepEqualsOneDirectional()
    ensures DeepEquals(Obj([]), Obj([Prop("k", Num(1), false)]))
    ensures !DeepEquals(Obj([Prop("k", Num(1), false)]), Obj([]))
  {
    var ps := [Prop("k", Num(1), false)];
    assert ps[1..] == [];
    assert EncodeFields(ps, true) == [JMember("k", JNum(1))] + [];
    assert Stringify(Obj(ps)) != Stringify(Obj([]));
    assert !HasOwn(Obj([]), "k");
  }

  lemma {:induction false} NatToStringInjective(m: nat, n: nat)
    ensures NatToString(m) == NatToString(n) ==> m == n
  {
    DigitsOfNatToString(m);
    DigitsOfNatToString(n);
  }

  lemma IntToStringInjective(s: int, t: int)
    ensures IntToString(s) == IntToString(t) ==> s == t
  {
    if IntToString(s) == IntToString(t) {
      if s < 0 && t < 0 {
        assert IntToString(s)[1..] == NatToString(-s);
        assert IntToString(t)[1..] == NatToString(-t);
        NatToStringInjective(-s, -t);
      } else if s >= 0 && t >= 0 {
        NatToStringInjective(s, t);
      }
    }
  }

  /**
   * As written, two different dates are deep-equal: their encodings differ, and
   * the object branch finds no own keys on a date (lib/core/Util.js:125-134).
   */
  lemma DatesEqualAsWritten()
    ensures DeepEqualsAsWritten(Date(0), Date(1000))
  {
    assert NatToString(1000) == "1000";
    assert Stringify(Date(0)) != Stringify(Date(1000));
  }

  /** With the date check in place, two dates are deep-equal exactly when they denote the same time. */
  lemma DatesEqual(s: int, t: int)
    ensures DeepEquals(Date(s), Date(t)) <==> s == t
  {
    IntToStringInjective(s, t);
  }

  // ---------------------------------------------------------------------------
  // get
  // ---------------------------------------------------------------------------

  /** `split` loses nothing: joining the segments gives the path back, and no segment holds the separator. */
  lemma {:induction false} SplitJoin(s: string, sep: char)
    ensures Join(Split(s, sep), sep) == s
    ensures forall i :: 0 <= i < |Split(s, sep)| ==> sep !in Split(s, sep)[i]
  {
    if s != [] {
      SplitJoin(s[1..], sep);
      var rest := Split(s[1..], sep);
      if s[0] == sep {
        assert Split(s, sep)[1..] == rest;
        assert [sep] + Join(rest, sep) == s;
      } else {
        var r := Split(s, sep);
        assert r[0] == [s[0]] + rest[0];
        assert forall i :: 1 <= i < |r| ==> r[i] == rest[i];
        if |rest| == 1 {
          assert [s[0]] + rest[0] == s;
        } else {
          assert r[1..] == rest[1..];
          assert Join(rest, sep) == rest[0] + [sep] + Join(rest[1..], sep);
          assert [s[0]] + Join(rest, sep) == s;
        }
      }
    }
  }

  lemma {:induction false} SplitAfterSegment(a: string, sep: char, rest: string)
    requires sep !in a
    ensures Split(a + [sep] + rest, sep) == [a] + Split(rest, sep)
  {
    if a != [] {
      assert (a + [sep] + rest)[1..] == a[1..] + [sep] + rest;
      SplitAfterSegment(a[1..], sep, rest);
      assert [a[0]] + a[1..] == a;
    } else {
      assert ([sep] + rest)[1..] == rest;
    }
  }

  lemma {:induction false} SplitWithoutSeparator(a: string, sep: char)
    requires sep !in a
    ensures Split(a, sep) == [a]
  {
    if a != [] {
      SplitWithoutSeparator(a[1..], sep);
      assert [a[0]] + a[1..] == a;
    }
  }

  /** Reading through `null` or `undefined` gives `undefined` instead of throwing. */
  lemma {:induction false} GetPathNullish(d: Value, segs: seq<string>)
    requires d.Null? || d.Undefined?
    requires segs != []
    ensures GetPath(d, segs) == Undefined
    decreases segs
  {
    if |segs| > 1 {
      GetPathNullish(Undefined, segs[1..]);
    }
  }

  /** The fold over a concatenation of segments is the fold over the second from the result of the first. */
  lemma {:induction false} GetPathAppend(d: Value, xs: seq<string>, ys: seq<string>)
    ensures GetPath(d, xs + ys) == GetPath(GetPath(d, xs), ys)
    decreases xs
  {
    if xs != [] {
      assert (xs + ys)[0] == xs[0] && (xs + ys)[1..] == xs[1..] + ys;
      GetPathAppend(GetStep(d, xs[0]), xs[1..], ys);
    } else {
      assert xs + ys == ys;
    }
  }

  /** `get(d, "k.rest")` reads `k` and then `rest` from what it found. */
  lemma GetDotted(d: Value, k: string, rest: string)
    requires '.' !in k
    ensures Get(d, k + "." + rest) == Get(GetStep(d, k), rest)
  {
    SplitAfterSegment(k, '.', rest);
    assert k + "." + rest == k + ['.'] + rest;
  }

  /** A path without dots is one property read; an index key reads the array element. */
  lemma GetSingle(d: Value, k: string)
    requires '.' !in k
    ensures Get(d, k) == GetStep(d, k)
    ensures forall i: nat :: d.Arr? && i < |d.items| && k == NatToString(i) ==> Get(d, k) == d.items[i]
  {
    SplitWithoutSeparator(k, '.');
    assert [k][1..] == [];
    assert GetPath(GetStep(d, k), []) == GetStep(d, k);
    assert GetPath(d, [k]) == GetStep(d, k);
    forall i: nat | d.Arr? && i < |d.items| && k == NatToString(i) ensures Get(d, k) == d.items[i] {
      ArrayIndexRead(d.items, d.wrapped, i);
      assert d == Arr(d.items, d.wrapped);
    }
  }
}
