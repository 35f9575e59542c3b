/**
 * What the observer does to the data tree itself: `injectMonitorSetters`
 * (lib/core/StateObserver.js:101-166, src/core/Store.ts:148-188), which puts a
 * getter/setter pair on every scalar property and patches the mutators of
 * arrays held in properties, and `stripInjectedValues`
 * (lib/core/StateObserver.js:184-218), which deletes the shadow keys from a
 * snapshot before listeners see it. Also the addressing of a place in the tree
 * and the native array mutators the patched ones call.
 *
 * The source rewrites the objects in place; here each operation maps a value
 * to the value it leaves behind.
 */
module Tree {
  import opened Wrappers
  import opened Values
  import opened Util

  // ---------------------------------------------------------------------------
  // Data without the observer's machinery
  // ---------------------------------------------------------------------------

  /** The data a value holds, forgetting which properties are watched and which arrays are patched. */
  function Erase(v: Value): (r: Value)
    ensures Plain(r)
    decreases v, 1
  {
    match v
    case Arr(items, _) => Arr(EraseItems(items), false)
    case Obj(ps) => Obj(EraseProps(ps))
    case MapV(es) => MapV(EraseEntries(es))
    case _ => v
  }

  function EraseItems(items: seq<Value>): (r: seq<Value>)
    ensures |r| == |items| && forall i :: 0 <= i < |items| ==> r[i] == Erase(items[i])
    decreases items, 0
  {
    if items == [] then [] else [Erase(items[0])] + EraseItems(items[1..])
  }

  function EraseProps(ps: seq<Prop>): (r: seq<Prop>)
    ensures |r| == |ps| && forall i :: 0 <= i < |ps| ==> r[i] == Prop(ps[i].key, Erase(ps[i].value), false)
    decreases ps, 0
  {
    if ps == [] then [] else [Prop(ps[0].key, Erase(ps[0].value), false)] + EraseProps(ps[1..])
  }

  function EraseEntries(es: seq<Entry>): (r: seq<Entry>)
    ensures |r| == |es| && forall i :: 0 <= i < |es| ==> r[i] == EraseEntry(es[i])
    decreases es, 0
  {
    if es == [] then [] else [EraseEntry(es[0])] + EraseEntries(es[1..])
  }

  function EraseEntry(e: Entry): Entry
    decreases e, 0
  {
    Entry(Erase(e.key), Erase(e.value))
  }

  // ---------------------------------------------------------------------------
  // injectMonitorSetters
  // ---------------------------------------------------------------------------

  /** What `typeof` calls 'object': null, dates, arrays, Maps and objects. */
  predicate ObjectTyped(v: Value)
  {
    TypeOf(v) == "object"
  }

  /** The values that get a getter/setter pair: neither 'object' nor 'function'. */
  predicate Scalar(v: Value)
  {
    v.Undefined? || v.Bool? || v.Num? || v.Str?
  }

  /**
   * `injectMonitorSetters(target)`: the loop over the keys of an object, or
   * over the indices of an array; other values have no enumerable keys.
   * An index key holding a scalar is not given an accessor in this model.
   */
  function InjectTarget(v: Value, wrap: bool): Value
    decreases v, 0
  {
    match v
    case Obj(ps) => Obj(InjectProps(ps, wrap))
    case Arr(items, w) => Arr(InjectSlots(items, wrap), w)
    case _ => v
  }

  /**
   * The loop body for the value under one key, apart from the accessor a
   * scalar gets: a Map's object-typed keys and values are injected; an array's
   * object-typed elements are injected and (with `wrap`) its mutators are
   * patched; any other 'object' is injected.
   */
  function InjectSlot(x: Value, wrap: bool): Value
    decreases x, 1
  {
    if x.MapV? then MapV(InjectEntries(x.entries, wrap))
    else if x.Arr? then Arr(InjectMembers(x.items, wrap), x.wrapped || wrap)
    else if ObjectTyped(x) then InjectTarget(x, wrap)
    else x
  }

  /**
   * The properties of an injected object: every scalar property becomes
   * watched (its value moves to the shadow key behind the accessor), every
   * other property keeps its key and holds its injected value. A property
   * that is watched already is left as it is.
   */
  function InjectProps(ps: seq<Prop>, wrap: bool): (r: seq<Prop>)
    ensures |r| == |ps|
    ensures forall i :: 0 <= i < |ps| ==> r[i].key == ps[i].key
    ensures forall i :: 0 <= i < |ps| ==> (r[i].watched <==> ps[i].watched || Scalar(ps[i].value))
    decreases ps, 2
  {
    if ps == [] then []
    else
      var p := ps[0];
      var q := if p.watched then p
               else if Scalar(p.value) then Prop(p.key, p.value, true)
               else Prop(p.key, InjectSlot(p.value, wrap), false);
      [q] + InjectProps(ps[1..], wrap)
  }

  /** The elements of an array that is itself the target: each element is treated as a slot. */
  function InjectSlots(items: seq<Value>, wrap: bool): (r: seq<Value>)
    ensures |r| == |items| && forall i :: 0 <= i < |items| ==> r[i] == InjectSlot(items[i], wrap)
    decreases items, 2
  {
    if items == [] then [] else [InjectSlot(items[0], wrap)] + InjectSlots(items[1..], wrap)
  }

  /** The elements of an array held in a property: object-typed ones are injected. */
  function InjectMembers(items: seq<Value>, wrap: bool): (r: seq<Value>)
    ensures |r| == |items|
    ensures forall i :: 0 <= i < |items| ==> r[i] == if ObjectTyped(items[i]) then InjectTarget(items[i], wrap) else items[i]
    decreases items, 2
  {
    if items == [] then []
    else [if ObjectTyped(items[0]) then InjectTarget(items[0], wrap) else items[0]] + InjectMembers(items[1..], wrap)
  }

  function InjectEntries(es: seq<Entry>, wrap: bool): (r: seq<Entry>)
    ensures |r| == |es| && forall i :: 0 <= i < |es| ==> r[i] == InjectEntry(es[i], wrap)
    decreases es, 2
  {
    if es == [] then [] else [InjectEntry(es[0], wrap)] + InjectEntries(es[1..], wrap)
  }

  function InjectEntry(e: Entry, wrap: bool): Entry
    decreases e, 2
  {
    Entry(if ObjectTyped(e.key) then InjectTarget(e.key, wrap) else e.key,
          if ObjectTyped(e.value) then InjectTarget(e.value, wrap) else e.value)
  }

  /** Injection only adds machinery: the data the tree holds is unchanged. */
  lemma {:induction false} InjectKeepsData(v: Value, wrap: bool)
    ensures Erase(InjectTarget(v, wrap)) == Erase(v)
    decreases v, 0
  {
    match v
    case Obj(ps) => InjectPropsKeepData(ps, wrap);
    case Arr(items, w) => InjectSlotsKeepData(items, wrap);
    case _ =>
  }

  lemma {:induction false} InjectSlotKeepsData(x: Value, wrap: bool)
    ensures Erase(InjectSlot(x, wrap)) == Erase(x)
    decreases x, 1
  {
    if x.MapV? {
      InjectEntriesKeepData(x.entries, wrap);
    } else if x.Arr? {
      InjectMembersKeepData(x.items, wrap);
    } else if ObjectTyped(x) {
      InjectKeepsData(x, wrap);
    }
  }

  lemma {:induction false} InjectPropsKeepData(ps: seq<Prop>, wrap: bool)
    ensures EraseProps(InjectProps(ps, wrap)) == EraseProps(ps)
    decreases ps, 2
  {
    var r := InjectProps(ps, wrap);
    forall i | 0 <= i < |ps| ensures EraseProps(r)[i] == EraseProps(ps)[i] {
      var p := ps[i];
      if !p.watched && !Scalar(p.value) {
        InjectSlotKeepsData(p.value, wrap);
        assert r[i] == InjectProps(ps[i..], wrap)[0] by { InjectPropsAt(ps, wrap, i); }
      } else {
        InjectPropsAt(ps, wrap, i);
      }
    }
  }

  /** Element `i` of the injected properties is the injection of property `i`. */
  lemma {:induction false} InjectPropsAt(ps: seq<Prop>, wrap: bool, i: nat)
    requires i < |ps|
    ensures InjectProps(ps, wrap)[i] == InjectProps(ps[i..], wrap)[0]
    ensures InjectProps(ps, wrap)[i] ==
              if ps[i].watched then ps[i]
              else if Scalar(ps[i].value) then Prop(ps[i].key, ps[i].value, true)
              else Prop(ps[i].key, InjectSlot(ps[i].value, wrap), false)
    decreases i
  {
    if i > 0 {
      InjectPropsAt(ps[1..], wrap, i - 1);
      assert ps[1..][i - 1..] == ps[i..];
    }
  }

  lemma {:induction false} InjectSlotsKeepData(items: seq<Value>, wrap: bool)
    ensures EraseItems(InjectSlots(items, wrap)) == EraseItems(items)
    decreases items, 2
  {
    forall i | 0 <= i < |items| ensures Erase(InjectSlots(items, wrap)[i]) == Erase(items[i]) {
      InjectSlotKeepsData(items[i], wrap);
    }
  }

  lemma {:induction false} InjectMembersKeepData(items: seq<Value>, wrap: bool)
    ensures EraseItems(InjectMembers(items, wrap)) == EraseItems(items)
    decreases items, 2
  {
    forall i | 0 <= i < |items| ensures Erase(InjectMembers(items, wrap)[i]) == Erase(items[i]) {
      if ObjectTyped(items[i]) { InjectKeepsData(items[i], wrap); }
    }
  }

  lemma {:induction false} InjectEntriesKeepData(es: seq<Entry>, wrap: bool)
    ensures EraseEntries(InjectEntries(es, wrap)) == EraseEntries(es)
    decreases es, 2
  {
    forall i | 0 <= i < |es| ensures EraseEntry(InjectEntries(es, wrap)[i]) == EraseEntry(es[i]) {
      InjectEntryKeepsData(es[i], wrap);
    }
  }

  lemma {:induction false} InjectEntryKeepsData(e: Entry, wrap: bool)
    ensures EraseEntry(InjectEntry(e, wrap)) == EraseEntry(e)
    decreases e, 2
  {
    if ObjectTyped(e.key) { InjectKeepsData(e.key, wrap); }
    if ObjectTyped(e.value) { InjectKeepsData(e.value, wrap); }
  }

  /** After injection a scalar property is behind an accessor, and reading it gives the value it held. */
  lemma InjectReadsBack(ps: seq<Prop>, key: string, wrap: bool)
    requires PropIndex(ps, key).Some? && Scalar(ps[PropIndex(ps, key).value].value)
    ensures var r := InjectTarget(Obj(ps), wrap);
            Watched(r.props, key) && GetProp(r, key) == GetProp(Obj(ps), key)
  {
    var i := PropIndex(ps, key).value;
    var qs := InjectProps(ps, wrap);
    assert InjectTarget(Obj(ps), wrap) == Obj(qs);
    PropIndexByKeys(ps, qs, key);
    InjectPropsAt(ps, wrap, i);
    assert qs[i].value == ps[i].value && qs[i].watched;
    GetPropFirst(qs, key);
    GetPropFirst(ps, key);
  }

  /** Where a key is found depends on the keys alone. */
  lemma {:induction false} PropIndexByKeys(ps: seq<Prop>, qs: seq<Prop>, key: string)
    requires |ps| == |qs| && forall i :: 0 <= i < |ps| ==> ps[i].key == qs[i].key
    ensures PropIndex(ps, key) == PropIndex(qs, key)
  {
    if ps != [] {
      PropIndexByKeys(ps[1..], qs[1..], key);
    }
  }

  // ---------------------------------------------------------------------------
  // stripInjectedValues
  // ---------------------------------------------------------------------------

  /**
   * `stripInjectedValues` on a snapshot. As written (`fixed` false) the tests
   * run in the source's order: `null` returns, an array and a Map are searched
   * element by element, and only then is a prefixed property deleted, so a
   * prefixed key whose value is `null`, an array or a Map survives. With
   * `fixed` every prefixed key is deleted.
   */
  function Strip(v: Value, fixed: bool): Value
    decreases v, 1
  {
    match v
    case Arr(items, w) => Arr(StripItems(items, fixed), w)
    case MapV(es) => MapV(StripEntries(es, fixed))
    case Obj(ps) => Obj(StripProps(ps, fixed))
    case _ => v
  }

  /** A property `stripInjectedValues(value, key, parent)` deletes. */
  predicate Deleted(p: Prop, fixed: bool)
  {
    HasPrefix(p.key) && (fixed || !(p.value.Null? || p.value.Arr? || p.value.MapV?))
  }

  function StripProps(ps: seq<Prop>, fixed: bool): seq<Prop>
    decreases ps, 0
  {
    if ps == [] then []
    else
      (if Deleted(ps[0], fixed) then [] else [Prop(ps[0].key, Strip(ps[0].value, fixed), ps[0].watched)])
      + StripProps(ps[1..], fixed)
  }

  function StripItems(items: seq<Value>, fixed: bool): (r: seq<Value>)
    ensures |r| == |items| && forall i :: 0 <= i < |items| ==> r[i] == Strip(items[i], fixed)
    decreases items, 0
  {
    if items == [] then [] else [Strip(items[0], fixed)] + StripItems(items[1..], fixed)
  }

  function StripEntries(es: seq<Entry>, fixed: bool): (r: seq<Entry>)
    ensures |r| == |es| && forall i :: 0 <= i < |es| ==> r[i] == StripEntry(es[i], fixed)
    decreases es, 0
  {
    if es == [] then [] else [StripEntry(es[0], fixed)] + StripEntries(es[1..], fixed)
  }

  function StripEntry(e: Entry, fixed: bool): Entry
    decreases e, 0
  {
    Entry(Strip(e.key, fixed), Strip(e.value, fixed))
  }

  /** No prefixed key anywhere in the tree. */
  predicate Clean(v: Value)
  {
    match v
    case Arr(items, _) => forall i :: 0 <= i < |items| ==> Clean(items[i])
    case Obj(ps) => forall i :: 0 <= i < |ps| ==> !HasPrefix(ps[i].key) && Clean(ps[i].value)
    case MapV(es) => forall i :: 0 <= i < |es| ==> Clean(es[i].key) && Clean(es[i].value)
    case _ => true
  }

  /** The keys of a list of properties. */
  function PropKeys(ps: seq<Prop>): (r: seq<string>)
    ensures |r| == |ps| && forall i :: 0 <= i < |ps| ==> r[i] == ps[i].key
  {
    if ps == [] then [] else [ps[0].key] + PropKeys(ps[1..])
  }

  /** The keys without the prefix, in order. */
  function Unprefixed(ks: seq<string>): seq<string>
  {
    if ks == [] then [] else (if HasPrefix(ks[0]) then [] else [ks[0]]) + Unprefixed(ks[1..])
  }

  /** The corrected strip leaves no prefixed key at any depth. */
  lemma {:induction false} StripCleans(v: Value)
    ensures Clean(Strip(v, true))
    decreases v, 1
  {
    match v
    case Arr(items, w) =>
      forall i | 0 <= i < |items| ensures Clean(StripItems(items, true)[i]) { StripCleans(items[i]); }
    case MapV(es) =>
      forall i | 0 <= i < |es| ensures Clean(StripEntries(es, true)[i].key) && Clean(StripEntries(es, true)[i].value) {
        StripCleans(es[i].key);
        StripCleans(es[i].value);
      }
    case Obj(ps) => StripPropsClean(ps);
    case _ =>
  }

  lemma {:induction false} StripPropsClean(ps: seq<Prop>)
    ensures Clean(Obj(StripProps(ps, true)))
    decreases ps, 0
  {
    if ps != [] {
      StripPropsClean(ps[1..]);
      var head := if Deleted(ps[0], true) then [] else [Prop(ps[0].key, Strip(ps[0].value, true), ps[0].watched)];
      var rest := StripProps(ps[1..], true);
      var r := head + rest;
      assert r == StripProps(ps, true);
      StripCleans(ps[0].value);
      forall i | 0 <= i < |r| ensures !HasPrefix(r[i].key) && Clean(r[i].value) {
        if i >= |head| { assert r[i] == rest[i - |head|]; }
      }
    }
  }

  /** The corrected strip keeps exactly the keys without the prefix, in order. */
  lemma {:induction false} StripKeys(ps: seq<Prop>)
    ensures PropKeys(StripProps(ps, true)) == Unprefixed(PropKeys(ps))
    decreases ps
  {
    if ps != [] {
      StripKeys(ps[1..]);
      var ks := PropKeys(ps);
      assert ks[0] == ps[0].key && ks[1..] == PropKeys(ps[1..]);
      var head := if Deleted(ps[0], true) then [] else [Prop(ps[0].key, Strip(ps[0].value, true), ps[0].watched)];
      var rest := StripProps(ps[1..], true);
      assert StripProps(ps, true) == head + rest;
      PropKeysAppend(head, rest);
      assert PropKeys(head) == if HasPrefix(ks[0]) then [] else [ks[0]];
    }
  }

  lemma PropKeysAppend(a: seq<Prop>, b: seq<Prop>)
    ensures PropKeys(a + b) == PropKeys(a) + PropKeys(b)
  {
    var l := PropKeys(a + b);
    var r := PropKeys(a) + PropKeys(b);
    assert |l| == |r|;
    forall i | 0 <= i < |l| ensures l[i] == r[i] {
      if i < |a| { assert (a + b)[i] == a[i]; } else { assert (a + b)[i] == b[i - |a|]; }
    }
  }

  /** Stripping a tree that has no prefixed key changes nothing. */
  lemma {:induction false} StripOfClean(v: Value, fixed: bool)
    requires Clean(v)
    ensures Strip(v, fixed) == v
    decreases v, 1
  {
    match v
    case Arr(items, w) =>
      forall i | 0 <= i < |items| ensures StripItems(items, fixed)[i] == items[i] { StripOfClean(items[i], fixed); }
    case MapV(es) =>
      forall i | 0 <= i < |es| ensures StripEntries(es, fixed)[i] == es[i] {
        StripOfClean(es[i].key, fixed);
        StripOfClean(es[i].value, fixed);
      }
    case Obj(ps) => StripPropsOfClean(ps, fixed);
    case _ =>
  }

  lemma {:induction false} StripPropsOfClean(ps: seq<Prop>, fixed: bool)
    requires Clean(Obj(ps))
    ensures StripProps(ps, fixed) == ps
    decreases ps, 0
  {
    if ps != [] {
      assert Clean(Obj(ps[1..])) by {
        forall i | 0 <= i < |ps[1..]| ensures !HasPrefix(ps[1..][i].key) && Clean(ps[1..][i].value) {
          assert ps[1..][i] == ps[i + 1];
        }
      }
      StripPropsOfClean(ps[1..], fixed);
      StripOfClean(ps[0].value, fixed);
      assert ps == [ps[0]] + ps[1..];
    }
  }

  /** Stripping twice strips no more than once. */
  lemma StripIdempotent(v: Value)
    ensures Strip(Strip(v, true), true) == Strip(v, true)
  {
    StripCleans(v);
    StripOfClean(Strip(v, true), true);
  }

  /**
   * As written, a shadow key whose value is `null` survives the strip: the
   * snapshot `{ "<prefix>x": null }` comes back unchanged and unclean.
   */
  lemma StripKeepsNullShadowAsWritten()
    ensures var v := Obj([Prop(ShadowKey("x"), Null, false)]);
            Strip(v, false) == v && !Clean(v) && Clean(Strip(v, true))
  {
    var v := Obj([Prop(ShadowKey("x"), Null, false)]);
    assert StripProps([Prop(ShadowKey("x"), Null, false)][1..], false) == [];
    StripCleans(v);
  }

  // ---------------------------------------------------------------------------
  // Places in the tree
  // ---------------------------------------------------------------------------

  /** One step from a value to a part of it: a property, an element, a Map key or a Map value. */
  datatype Step = Key(key: string) | Index(i: nat) | MapKey(k: nat) | MapValue(k: nat)

  /** Position of the first property with the key. */
  function PropIndex(ps: seq<Prop>, key: string): (r: Option<nat>)
    ensures r.None? <==> forall i :: 0 <= i < |ps| ==> ps[i].key != key
    ensures r.Some? ==> r.value < |ps| && ps[r.value].key == key
                        && forall j :: 0 <= j < r.value ==> ps[j].key != key
  {
    if ps == [] then None
    else if ps[0].key == key then Some(0)
    else match PropIndex(ps[1..], key)
      case None => None
      case Some(i) => Some(i + 1)
  }

  /** The part of `v` a path leads to, if the path exists. */
  function At(v: Value, path: seq<Step>): Option<Value>
    decreases path
  {
    if path == [] then Some(v)
    else
      match (v, path[0])
      case (Obj(ps), Key(k)) =>
        (match PropIndex(ps, k) case Some(i) => At(ps[i].value, path[1..]) case None => None)
      case (Arr(items, _), Index(i)) => if i < |items| then At(items[i], path[1..]) else None
      case (MapV(es), MapKey(i)) => if i < |es| then At(es[i].key, path[1..]) else None
      case (MapV(es), MapValue(i)) => if i < |es| then At(es[i].value, path[1..]) else None
      case _ => None
  }

  /** `v` with the part a path leads to replaced by `w`; `v` itself when the path does not exist. */
  function Update(v: Value, path: seq<Step>, w: Value): Value
    decreases path
  {
    if path == [] then w
    else
      match (v, path[0])
      case (Obj(ps), Key(k)) =>
        (match PropIndex(ps, k)
         case Some(i) => Obj(ps[i := Prop(ps[i].key, Update(ps[i].value, path[1..], w), ps[i].watched)])
         case None => v)
      case (Arr(items, wr), Index(i)) => if i < |items| then Arr(items[i := Update(items[i], path[1..], w)], wr) else v
      case (MapV(es), MapKey(i)) =>
        if i < |es| then MapV(es[i := Entry(Update(es[i].key, path[1..], w), es[i].value)]) else v
      case (MapV(es), MapValue(i)) =>
        if i < |es| then MapV(es[i := Entry(es[i].key, Update(es[i].value, path[1..], w))]) else v
      case _ => v
  }

  /** Writing a part and reading it back gives what was written. */
  lemma {:induction false} UpdateThenAt(v: Value, path: seq<Step>, w: Value)
    requires At(v, path).Some?
    ensures At(Update(v, path, w), path) == Some(w)
    decreases path
  {
    if path != [] {
      match (v, path[0])
      case (Obj(ps), Key(k)) =>
        var i := PropIndex(ps, k).value;
        UpdateThenAt(ps[i].value, path[1..], w);
        var qs := ps[i := Prop(ps[i].key, Update(ps[i].value, path[1..], w), ps[i].watched)];
        assert PropIndex(qs, k) == Some(i) by {
          assert qs[i].key == k;
          assert forall j :: 0 <= j < i ==> qs[j] == ps[j];
        }
      case (Arr(items, _), Index(i)) => UpdateThenAt(items[i], path[1..], w);
      case (MapV(es), MapKey(i)) => UpdateThenAt(es[i].key, path[1..], w);
      case (MapV(es), MapValue(i)) => UpdateThenAt(es[i].value, path[1..], w);
    }
  }

  /** Writing back what is there changes nothing. */
  lemma {:induction false} UpdateWithSame(v: Value, path: seq<Step>)
    requires At(v, path).Some?
    ensures Update(v, path, At(v, path).value) == v
    decreases path
  {
    if path != [] {
      match (v, path[0])
      case (Obj(ps), Key(k)) =>
        var i := PropIndex(ps, k).value;
        UpdateWithSame(ps[i].value, path[1..]);
        assert ps[i := Prop(ps[i].key, ps[i].value, ps[i].watched)] == ps;
      case (Arr(items, _), Index(i)) =>
        UpdateWithSame(items[i], path[1..]);
        assert items[i := items[i]] == items;
      case (MapV(es), MapKey(i)) =>
        UpdateWithSame(es[i].key, path[1..]);
        assert es[i := Entry(es[i].key, es[i].value)] == es;
      case (MapV(es), MapValue(i)) =>
        UpdateWithSame(es[i].value, path[1..]);
        assert es[i := Entry(es[i].key, es[i].value)] == es;
    }
  }

  // ---------------------------------------------------------------------------
  // Assignment to a property of an object in the tree
  // ---------------------------------------------------------------------------

  /**
   * `obj[key] = x` on a plain property: an existing property gets the value,
   * a new key is appended. A watched property keeps its accessor, so writing
   * it through the setter stores the value behind the accessor.
   */
  function SetKey(ps: seq<Prop>, key: string, x: Value): (r: seq<Prop>)
    ensures PropIndex(ps, key).Some? ==> |r| == |ps| && PropIndex(r, key) == PropIndex(ps, key)
    ensures PropIndex(ps, key).None? ==> r == ps + [Prop(key, x, false)]
    ensures forall i :: 0 <= i < |ps| && ps[i].key != key ==> r[i] == ps[i]
    ensures PropIndex(r, key).Some? && r[PropIndex(r, key).value].value == x
  {
    match PropIndex(ps, key)
    case Some(i) =>
      var r := ps[i := Prop(key, x, ps[i].watched)];
      assert r[i].key == key;
      assert forall j :: 0 <= j < i ==> r[j] == ps[j];
      assert PropIndex(r, key) == Some(i);
      r
    case None =>
      var r := ps + [Prop(key, x, false)];
      assert r[|ps|].key == key;
      assert forall j :: 0 <= j < |ps| ==> r[j] == ps[j];
      r
  }

  /** Whether the property is behind an observer accessor. */
  predicate Watched(ps: seq<Prop>, key: string)
  {
    PropIndex(ps, key).Some? && ps[PropIndex(ps, key).value].watched
  }

  /** Following a path and then a second one is following their concatenation. */
  lemma {:induction false} AtAppend(v: Value, p: seq<Step>, q: seq<Step>)
    ensures At(v, p + q) == match At(v, p) case Some(u) => At(u, q) case None => None
    decreases p
  {
    if p != [] {
      assert (p + q)[0] == p[0];
      assert (p + q)[1..] == p[1..] + q;
      match (v, p[0])
      case (Obj(ps), Key(k)) =>
        if PropIndex(ps, k).Some? { AtAppend(ps[PropIndex(ps, k).value].value, p[1..], q); }
      case (Arr(items, _), Index(i)) => if i < |items| { AtAppend(items[i], p[1..], q); }
      case (MapV(es), MapKey(i)) => if i < |es| { AtAppend(es[i].key, p[1..], q); }
      case (MapV(es), MapValue(i)) => if i < |es| { AtAppend(es[i].value, p[1..], q); }
      case _ =>
    } else {
      assert [] + q == q;
    }
  }

  /** A property read finds the first property with the key, before any shadow key. */
  lemma {:induction false} GetPropFirst(ps: seq<Prop>, key: string)
    requires PropIndex(ps, key).Some?
    ensures GetProp(Obj(ps), key) == ps[PropIndex(ps, key).value].value
  {
    LookupFieldsFirst(ps, Shadows(ps), key);
  }

  lemma {:induction false} LookupFieldsFirst(ps: seq<Prop>, rest: seq<Member>, key: string)
    requires PropIndex(ps, key).Some?
    ensures Lookup(Fields(ps) + rest, key) == Some(ps[PropIndex(ps, key).value].value)
  {
    var ms := Fields(ps) + rest;
    assert ms[0] == Member(ps[0].key, ps[0].value);
    if ps[0].key != key {
      assert ms[1..] == Fields(ps[1..]) + rest;
      LookupFieldsFirst(ps[1..], rest, key);
    }
  }

  // ---------------------------------------------------------------------------
  // The native array mutators
  // ---------------------------------------------------------------------------

  /**
   * A call of one of the patched array methods. `Splice` takes its numeric
   * arguments as integers; an absent delete count removes to the end.
   */
  datatype ArrayCall =
    | Pop
    | Push(args: seq<Value>)
    | Shift
    | Unshift(args: seq<Value>)
    | Splice(start: int, deleteCount: Option<int>, inserted: seq<Value>)
    | Concat(args: seq<Value>)

  datatype Mutated = Mutated(items: seq<Value>, result: Value)

  /** `Array.prototype.splice`'s clamping of the start position. */
  function SpliceStart(len: nat, start: int): (r: nat)
    ensures r <= len
  {
    if start < 0 then (if len + start < 0 then 0 else len + start) else if start > len then len else start
  }

  /** `Array.prototype.splice`'s clamping of the delete count. */
  function SpliceCount(len: nat, from: nat, deleteCount: Option<int>): (r: nat)
    requires from <= len
    ensures from + r <= len
  {
    match deleteCount
    case None => len - from
    case Some(d) => if d < 0 then 0 else if d > len - from then len - from else d
  }

  /** The values `concat` appends: array arguments are spread, others appended. */
  function Spread(args: seq<Value>): seq<Value>
  {
    if args == [] then []
    else (if args[0].Arr? then args[0].items else [args[0]]) + Spread(args[1..])
  }

  /**
   * What the native method leaves in the array and what it returns. Elements
   * are conserved: `pop` and `shift` take one off a non-empty array, `push`
   * and `unshift` add their arguments and return the new length, `concat`
   * leaves the array alone, and `splice` removes what it returns and adds what
   * it inserts.
   */
  function Native(items: seq<Value>, call: ArrayCall): (r: Mutated)
    ensures (call.Pop? || call.Shift?) ==> |r.items| == if items == [] then 0 else |items| - 1
    ensures (call.Push? || call.Unshift?) ==> |r.items| == |items| + |call.args| && r.result == Num(|r.items|)
    ensures call.Concat? ==> r.items == items
    ensures call.Splice? ==>
              r.result.Arr? && |r.items| + |r.result.items| == |items| + |call.inserted|
  {
    match call
    case Pop => if items == [] then Mutated([], Undefined) else Mutated(items[..|items| - 1], items[|items| - 1])
    case Shift => if items == [] then Mutated([], Undefined) else Mutated(items[1..], items[0])
    case Push(args) => Mutated(items + args, Num(|items| + |args|))
    case Unshift(args) => Mutated(args + items, Num(|items| + |args|))
    case Concat(args) => Mutated(items, Arr(items + Spread(args), false))
    case Splice(start, dc, ins) =>
      var from := SpliceStart(|items|, start);
      var n := SpliceCount(|items|, from, dc);
      Mutated(items[..from] + ins + items[from + n..], Arr(items[from..from + n], false))
  }

  /**
   * The patched method (lib/core/StateObserver.js:125-138): the native one is
   * applied; when the length changed, the arguments of every method but `pop`
   * and `splice` are injected (the inserted elements are the same objects, so
   * they end up injected inside the array). Whether the length changed is what
   * decides if listeners run.
   */
  function Patched(items: seq<Value>, call: ArrayCall): (r: Mutated)
    ensures |r.items| == |Native(items, call).items|
    ensures r.result == Native(items, call).result
  {
    var m := Native(items, call);
    if |m.items| == |items| then m
    else match call
      case Push(args) => Mutated(items + InjectSlots(args, true), m.result)
      case Unshift(args) => Mutated(InjectSlots(args, true) + items, m.result)
      case _ => m
  }
}
