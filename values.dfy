/**
 * The JavaScript values the stores hold, as an explicit tree.
 *
 * Objects are ordered lists of properties; a property that the observer has
 * put behind a getter/setter pair is `watched`, and its value then also lives
 * under the shadow key `@state__<key>`, which is an own enumerable property
 * appended after the original keys. An array whose mutators the observer has
 * patched is `wrapped`. Object identity is not modelled: values are compared
 * structurally.
 */
module Values {
  import opened Wrappers

  /** Prefix of the shadow keys the observer adds (lib/core/StateObserver.js:26). */
  const INJECT_PREFIX: string := "@state__"

  datatype Value =
    | Undefined
    | Null
    | Bool(b: bool)
    | Num(n: int)
    | Str(s: string)
    | Date(time: int)
    | Function(id: nat)
    | Arr(items: seq<Value>, wrapped: bool)
    | Obj(props: seq<Prop>)
    | MapV(entries: seq<Entry>)

  datatype Prop = Prop(key: string, value: Value, watched: bool)

  datatype Entry = Entry(key: Value, value: Value)

  /** A property name and the value read through it. */
  datatype Member = Member(key: string, value: Value)

  /** The errors the modelled code can throw. */
  datatype Error =
    | TypeError(reason: string)
    | SyntaxError
    | FunctionStored
    | DuplicateStore(name: string)
    | CallbackFailed(message: string)
    | Thrown(message: string)
    | ObserverDataReadOnly

  /** JavaScript `typeof`. */
  function TypeOf(v: Value): string
  {
    match v
    case Undefined => "undefined"
    case Bool(_) => "boolean"
    case Num(_) => "number"
    case Str(_) => "string"
    case Function(_) => "function"
    case _ => "object"
  }

  /** JavaScript truthiness (`if (v)`). */
  predicate Truthy(v: Value)
  {
    match v
    case Undefined => false
    case Null => false
    case Bool(b) => b
    case Num(n) => n != 0
    case Str(s) => s != ""
    case _ => true
  }

  /** Values a `Map` compares by value (SameValueZero); every other value is compared by identity. */
  predicate IsPrimitive(v: Value)
  {
    v.Undefined? || v.Null? || v.Bool? || v.Num? || v.Str?
  }

  /** `v instanceof Object`. */
  predicate IsInstance(v: Value)
  {
    v.Date? || v.Function? || v.Arr? || v.Obj? || v.MapV?
  }

  function ShadowKey(key: string): (r: string)
    ensures HasPrefix(r) && r[|INJECT_PREFIX|..] == key
  {
    INJECT_PREFIX + key
  }

  /** `key.startsWith(INJECT_PREFIX)`. */
  predicate HasPrefix(key: string)
  {
    |INJECT_PREFIX| <= |key| && key[..|INJECT_PREFIX|] == INJECT_PREFIX
  }

  /** The original keys of an object, in order. */
  function Fields(ps: seq<Prop>): (r: seq<Member>)
    ensures |r| == |ps|
    ensures forall i :: 0 <= i < |ps| ==> r[i] == Member(ps[i].key, ps[i].value)
  {
    if ps == [] then [] else [Member(ps[0].key, ps[0].value)] + Fields(ps[1..])
  }

  /** The shadow keys the observer added, in the order they were created. */
  function Shadows(ps: seq<Prop>): seq<Member>
  {
    if ps == [] then []
    else (if ps[0].watched then [Member(ShadowKey(ps[0].key), ps[0].value)] else []) + Shadows(ps[1..])
  }

  /** The own enumerable properties of an object, in `for...in` order. */
  function OwnMembers(ps: seq<Prop>): seq<Member>
  {
    Fields(ps) + Shadows(ps)
  }

  /** First member with the key, as a property read does. */
  function Lookup(ms: seq<Member>, key: string): (r: Option<Value>)
    ensures r.None? <==> forall i :: 0 <= i < |ms| ==> ms[i].key != key
    ensures r.Some? ==> exists i :: 0 <= i < |ms| && ms[i].key == key && ms[i].value == r.value
                                   && forall j :: 0 <= j < i ==> ms[j].key != key
  {
    if ms == [] then None
    else if ms[0].key == key then Some(ms[0].value)
    else
      var r := Lookup(ms[1..], key);
      assert forall i :: 1 <= i < |ms| ==> ms[i] == ms[1..][i - 1];
      r
  }

  predicate IsDigit(c: char) { '0' <= c <= '9' }

  function DigitChar(d: nat): (c: char)
    requires d < 10
    ensures IsDigit(c) && c as int - '0' as int == d
  {
    "0123456789"[d]
  }

  /** Decimal rendering of a natural number, as `String(n)`. */
  function NatToString(n: nat): (r: string)
    ensures |r| > 0
    ensures forall i :: 0 <= i < |r| ==> IsDigit(r[i])
    ensures r[0] == '0' ==> n == 0
  {
    if n < 10 then [DigitChar(n)] else NatToString(n / 10) + [DigitChar(n % 10)]
  }

  function IntToString(i: int): string
  {
    if i < 0 then "-" + NatToString(-i) else NatToString(i)
  }

  /** The number a digit string denotes. */
  function DigitsValue(s: string): nat
    requires forall i :: 0 <= i < |s| ==> IsDigit(s[i])
  {
    if s == [] then 0
    else
      assert IsDigit(s[|s| - 1]);
      DigitsValue(s[..|s| - 1]) * 10 + (s[|s| - 1] as int - '0' as int)
  }

  /** The array index a property key denotes: only canonical decimal strings do. */
  function ParseIndex(key: string): Option<nat>
  {
    if |key| > 0 && (forall i :: 0 <= i < |key| ==> IsDigit(key[i])) && (key[0] != '0' || |key| == 1)
    then Some(DigitsValue(key))
    else None
  }

  lemma {:induction false} DigitsOfNatToString(n: nat)
    ensures DigitsValue(NatToString(n)) == n
  {
    if n >= 10 {
      var s := NatToString(n);
      DigitsOfNatToString(n / 10);
      assert s[..|s| - 1] == NatToString(n / 10);
    }
  }

  /** An index key read back gives the index: `arr[String(i)]` is `arr[i]`. */
  lemma IndexKeyRoundTrip(n: nat)
    ensures ParseIndex(NatToString(n)) == Some(n)
  {
    DigitsOfNatToString(n);
  }

  /** `v[key]` for a property key; prototype members other than `length` and `size` are not modelled. */
  function GetProp(v: Value, key: string): Value
  {
    match v
    case Obj(ps) => (match Lookup(OwnMembers(ps), key) case Some(x) => x case None => Undefined)
    case Arr(items, _) =>
      if key == "length" then Num(|items|)
      else (match ParseIndex(key)
            case Some(i) => if i < |items| then items[i] else Undefined
            case None => Undefined)
    case Str(s) =>
      if key == "length" then Num(|s|)
      else (match ParseIndex(key)
            case Some(i) => if i < |s| then Str([s[i]]) else Undefined
            case None => Undefined)
    case MapV(es) => if key == "size" then Num(|es|) else Undefined
    case _ => Undefined
  }

  /** `Object.prototype.hasOwnProperty.call(v, key)` for the values that are objects. */
  predicate HasOwn(v: Value, key: string)
  {
    match v
    case Obj(ps) => Lookup(OwnMembers(ps), key).Some?
    case Arr(items, _) =>
      key == "length" || (ParseIndex(key).Some? && ParseIndex(key).value < |items|)
    case _ => false
  }

  /** Reading element `i` of an array through its index key gives the element. */
  lemma ArrayIndexRead(items: seq<Value>, wrapped: bool, i: nat)
    requires i < |items|
    ensures GetProp(Arr(items, wrapped), NatToString(i)) == items[i]
    ensures HasOwn(Arr(items, wrapped), NatToString(i))
  {
    IndexKeyRoundTrip(i);
  }

  /** Keys of a list of members. */
  function Keys(ms: seq<Member>): (r: seq<string>)
    ensures |r| == |ms| && forall i :: 0 <= i < |ms| ==> r[i] == ms[i].key
  {
    if ms == [] then [] else [ms[0].key] + Keys(ms[1..])
  }

  predicate Distinct(ks: seq<string>)
  {
    forall i, j :: 0 <= i < j < |ks| ==> ks[i] != ks[j]
  }

  /** Two map keys that a `Map` would treat as the same key. */
  predicate SameKey(a: Value, b: Value)
  {
    IsPrimitive(a) && a == b
  }

  /** The keys of a real `Map` are pairwise different. */
  predicate DistinctMapKeys(es: seq<Entry>)
  {
    forall i, j :: 0 <= i < j < |es| ==> !SameKey(es[i].key, es[j].key)
  }
}
