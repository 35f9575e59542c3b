/**
 * Handler registries: the arrays of actions, listeners, loaders and
 * transformers a store keeps, and the per-store tables of unbound handlers the
 * state manager keeps (lib/core/Store.js:117-180, 436-496,
 * lib/core/State.js:22-51).
 *
 * Every `create*` removes the first handler with the same name and appends
 * the new one; `removeEventHandler` splices out the first handler with the
 * name. Lookups take the first handler with the name.
 */
module Registry {
  import opened Wrappers
  import opened Actions

  /** Position of the first handler with the name. */
  function IndexOf(hs: seq<Action>, name: string): (r: Option<nat>)
    ensures r.None? <==> forall i :: 0 <= i < |hs| ==> hs[i].name != name
    ensures r.Some? ==> r.value < |hs| && hs[r.value].name == name
                        && forall j :: 0 <= j < r.value ==> hs[j].name != name
  {
    if hs == [] then None
    else if hs[0].name == name then Some(0)
    else
      match IndexOf(hs[1..], name)
      case None => None
      case Some(i) => Some(i + 1)
  }

  /** `handlers.find(h => h.name === name)`. */
  function Find(hs: seq<Action>, name: string): (r: Option<Action>)
    ensures r.None? <==> forall i :: 0 <= i < |hs| ==> hs[i].name != name
    ensures r.Some? ==> IndexOf(hs, name).Some? && r.value == hs[IndexOf(hs, name).value]
  {
    match IndexOf(hs, name)
    case None => None
    case Some(i) => Some(hs[i])
  }

  /** The handlers whose name is not `name`, in order. */
  function Others(hs: seq<Action>, name: string): seq<Action>
  {
    if hs == [] then []
    else (if hs[0].name == name then [] else [hs[0]]) + Others(hs[1..], name)
  }

  /** How many handlers carry the name. */
  function Count(hs: seq<Action>, name: string): nat
  {
    if hs == [] then 0
    else (if hs[0].name == name then 1 else 0) + Count(hs[1..], name)
  }

  /** No two handlers share a name. */
  predicate UniqueNames(hs: seq<Action>)
  {
    forall i, j :: 0 <= i < j < |hs| ==> hs[i].name != hs[j].name
  }

  /**
   * `removeEventHandler`: the handler `find` returns is spliced out at the
   * index `indexOf` gives for it, which is the first position with its name.
   */
  function RemoveFirst(hs: seq<Action>, name: string): (r: seq<Action>)
    ensures IndexOf(hs, name).None? ==> r == hs
    ensures IndexOf(hs, name).Some? ==> |r| == |hs| - 1
  {
    match IndexOf(hs, name)
    case None => hs
    case Some(i) => hs[..i] + hs[i + 1..]
  }

  /** A `create*` call: the old handler with the name goes and the new one is appended. */
  function Upsert(hs: seq<Action>, a: Action): (r: seq<Action>)
    ensures |r| > 0 && r[|r| - 1] == a
  {
    RemoveFirst(hs, a.name) + [a]
  }

  lemma {:induction false} OthersAppend(a: seq<Action>, b: seq<Action>, name: string)
    ensures Others(a + b, name) == Others(a, name) + Others(b, name)
    ensures Count(a + b, name) == Count(a, name) + Count(b, name)
  {
    if a == [] {
      assert a + b == b;
    } else {
      assert (a + b)[0] == a[0];
      assert (a + b)[1..] == a[1..] + b;
      OthersAppend(a[1..], b, name);
      var h := if a[0].name == name then [] else [a[0]];
      calc {
        Others(a + b, name);
        h + Others(a[1..] + b, name);
        h + (Others(a[1..], name) + Others(b, name));
        (h + Others(a[1..], name)) + Others(b, name);
      }
    }
  }

  lemma {:induction false} NoneNamed(hs: seq<Action>, name: string)
    requires forall i :: 0 <= i < |hs| ==> hs[i].name != name
    ensures Others(hs, name) == hs && Count(hs, name) == 0
  {
    if hs != [] {
      NoneNamed(hs[1..], name);
    }
  }

  /**
   * Removing by name deletes one handler with that name, if there is one,
   * and leaves every handler with another name where it was.
   */
  lemma RemoveFirstSpec(hs: seq<Action>, name: string)
    ensures Others(RemoveFirst(hs, name), name) == Others(hs, name)
    ensures Count(RemoveFirst(hs, name), name) == if Count(hs, name) == 0 then 0 else Count(hs, name) - 1
  {
    match IndexOf(hs, name)
    case None =>
      NoneNamed(hs, name);
    case Some(i) =>
      assert hs == hs[..i] + hs[i..];
      assert hs[i..] == [hs[i]] + hs[i + 1..];
      OthersAppend(hs[..i], hs[i..], name);
      OthersAppend([hs[i]], hs[i + 1..], name);
      OthersAppend(hs[..i], hs[i + 1..], name);
      NoneNamed(hs[..i], name);
      assert Others([hs[i]], name) == [] by {
        assert [hs[i]][1..] == [];
      }
      assert Count([hs[i]], name) == 1 by {
        assert [hs[i]][1..] == [];
      }
  }

  lemma {:induction false} CountZero(hs: seq<Action>, name: string)
    requires Count(hs, name) == 0
    ensures forall i :: 0 <= i < |hs| ==> hs[i].name != name
  {
    if hs != [] {
      CountZero(hs[1..], name);
      assert forall i :: 1 <= i < |hs| ==> hs[i] == hs[1..][i - 1];
    }
  }

  lemma {:induction false} UniqueCount(hs: seq<Action>, name: string)
    requires UniqueNames(hs)
    ensures Count(hs, name) <= 1
  {
    if hs != [] {
      UniqueCount(hs[1..], name);
      if hs[0].name == name {
        assert forall i :: 0 <= i < |hs[1..]| ==> hs[1..][i].name != name by {
          forall i | 0 <= i < |hs[1..]| ensures hs[1..][i].name != name {
            assert hs[1..][i] == hs[i + 1];
          }
        }
        NoneNamed(hs[1..], name);
      }
    }
  }

  /**
   * A `create*` call on a registry with unique names keeps the names unique,
   * leaves exactly one handler with the new name (the new one, last), and
   * keeps every other handler in order.
   */
  lemma UpsertSpec(hs: seq<Action>, a: Action)
    requires UniqueNames(hs)
    ensures UniqueNames(Upsert(hs, a))
    ensures Count(Upsert(hs, a), a.name) == 1
    ensures Others(Upsert(hs, a), a.name) == Others(hs, a.name)
  {
    var rest := RemoveFirst(hs, a.name);
    RemoveFirstSpec(hs, a.name);
    RemoveFirstUnique(hs, a.name);
    var r := rest + [a];
    assert r == Upsert(hs, a);
    forall x, y | 0 <= x < y < |r| ensures r[x].name != r[y].name {
      assert r[x] == rest[x];
      if y < |rest| { assert r[y] == rest[y]; }
    }
    NoneNamed(rest, a.name);
    OthersAppend(rest, [a], a.name);
    assert Others([a], a.name) == [] && Count([a], a.name) == 1 by {
      assert [a][1..] == [];
    }
  }

  /** Removal keeps names unique and leaves no handler with the removed name. */
  lemma RemoveFirstUnique(hs: seq<Action>, name: string)
    requires UniqueNames(hs)
    ensures UniqueNames(RemoveFirst(hs, name))
    ensures forall i :: 0 <= i < |RemoveFirst(hs, name)| ==> RemoveFirst(hs, name)[i].name != name
  {
    RemoveFirstSpec(hs, name);
    UniqueCount(hs, name);
    CountZero(RemoveFirst(hs, name), name);
    match IndexOf(hs, name)
    case None =>
    case Some(i) =>
      var rest := RemoveFirst(hs, name);
      forall x, y | 0 <= x < y < |rest| ensures rest[x].name != rest[y].name {
        var ox := if x < i then x else x + 1;
        var oy := if y < i then y else y + 1;
        assert rest[x] == hs[ox] && rest[y] == hs[oy];
      }
  }

  /**
   * `findEventHandler`: actions are searched first, then loaders, then
   * transformers.
   */
  function FindEventHandler(actions: seq<Action>, loaders: seq<Action>, transformers: seq<Action>,
                            name: string): (r: Option<Action>)
    ensures r.Some? ==> r.value.name == name
    ensures r.None? <==> Find(actions, name).None? && Find(loaders, name).None? && Find(transformers, name).None?
    ensures Find(actions, name).Some? ==> r == Find(actions, name)
    ensures Find(actions, name).None? && Find(loaders, name).Some? ==> r == Find(loaders, name)
  {
    if Find(actions, name).Some? then Find(actions, name)
    else if Find(loaders, name).Some? then Find(loaders, name)
    else Find(transformers, name)
  }

  // ---------------------------------------------------------------------------
  // Unbound handler tables of the state manager
  // ---------------------------------------------------------------------------

  /** The handlers registered for a store name, `[]` when there are none. */
  function HandlersFor(m: map<string, seq<Action>>, store: string): seq<Action>
  {
    if store in m then m[store] else []
  }

  /**
   * `addUnboundEventHandler`: the store's list gets the handler by the same
   * remove-then-append rule; other stores' lists are untouched.
   */
  function AddUnbound(m: map<string, seq<Action>>, store: string, a: Action): (r: map<string, seq<Action>>)
    ensures r.Keys == m.Keys + {store}
    ensures forall s :: s in m && s != store ==> r[s] == m[s]
    ensures r[store] == Upsert(HandlersFor(m, store), a)
  {
    m[store := Upsert(HandlersFor(m, store), a)]
  }

  /** The handler a store creates when an unbound one is replayed onto it. */
  function Retype(h: Action, t: ActionType): Action
  {
    Action(h.name, h.callback, t)
  }

  /**
   * `addStore` replaying a table: the store's `create*` is called for each
   * unbound handler in order.
   */
  function Replay(hs: seq<Action>, us: seq<Action>, t: ActionType): seq<Action>
  {
    if us == [] then hs
    else Upsert(Replay(hs, us[..|us| - 1], t), Retype(us[|us| - 1], t))
  }

  function Names(us: seq<Action>): set<string>
  {
    set i | 0 <= i < |us| :: us[i].name
  }

  /** The handlers of `hs` with none of the names. */
  function Without(hs: seq<Action>, names: set<string>): (r: seq<Action>)
    ensures |r| <= |hs|
  {
    if hs == [] then []
    else (if hs[0].name in names then [] else [hs[0]]) + Without(hs[1..], names)
  }

  function RetypeAll(us: seq<Action>, t: ActionType): (r: seq<Action>)
    ensures |r| == |us| && forall i :: 0 <= i < |us| ==> r[i] == Retype(us[i], t)
  {
    if us == [] then [] else [Retype(us[0], t)] + RetypeAll(us[1..], t)
  }

  lemma {:induction false} WithoutAppend(a: seq<Action>, b: seq<Action>, names: set<string>)
    ensures Without(a + b, names) == Without(a, names) + Without(b, names)
  {
    if a != [] {
      assert (a + b)[1..] == a[1..] + b;
      WithoutAppend(a[1..], b, names);
    } else {
      assert a + b == b;
    }
  }

  /** Every handler kept by the filter is one of the originals and has none of the names. */
  lemma {:induction false} WithoutElements(hs: seq<Action>, names: set<string>)
    ensures forall x :: x in Without(hs, names) ==> x in hs && x.name !in names
  {
    if hs != [] {
      WithoutElements(hs[1..], names);
    }
  }

  lemma {:induction false} WithoutUnique(hs: seq<Action>, names: set<string>)
    requires UniqueNames(hs)
    ensures UniqueNames(Without(hs, names))
  {
    if hs != [] {
      var t := hs[1..];
      assert UniqueNames(t) by {
        forall x, y | 0 <= x < y < |t| ensures t[x].name != t[y].name {
          assert t[x] == hs[x + 1] && t[y] == hs[y + 1];
        }
      }
      WithoutUnique(t, names);
      WithoutElements(t, names);
      var w := Without(t, names);
      if hs[0].name !in names {
        var r := [hs[0]] + w;
        forall x, y | 0 <= x < y < |r| ensures r[x].name != r[y].name {
          if x == 0 {
            assert r[y] == w[y - 1] && r[y] in t;
          } else {
            assert r[x] == w[x - 1] && r[y] == w[y - 1];
          }
        }
      }
    }
  }

  lemma {:induction false} WithoutWithout(hs: seq<Action>, a: set<string>, b: set<string>)
    ensures Without(Without(hs, a), b) == Without(hs, a + b)
  {
    if hs != [] {
      WithoutWithout(hs[1..], a, b);
      if hs[0].name !in a {
        assert Without(hs, a) == [hs[0]] + Without(hs[1..], a);
        assert Without(hs, a)[1..] == Without(hs[1..], a);
      } else {
        assert Without(hs, a) == Without(hs[1..], a);
      }
    }
  }

  /** Below the first handler, names stay unique and none repeats the first one's. */
  lemma UniqueTail(hs: seq<Action>)
    requires UniqueNames(hs) && hs != []
    ensures UniqueNames(hs[1..])
    ensures forall i :: 0 <= i < |hs| - 1 ==> hs[1..][i].name != hs[0].name
  {
    var t := hs[1..];
    forall x, y | 0 <= x < y < |t| ensures t[x].name != t[y].name {
      assert t[x] == hs[x + 1] && t[y] == hs[y + 1];
    }
    forall i | 0 <= i < |t| ensures t[i].name != hs[0].name {
      assert t[i] == hs[i + 1];
    }
  }

  /** Removing the first handler's name drops just that handler. */
  lemma RemoveHeadIsFilter(hs: seq<Action>)
    requires UniqueNames(hs) && hs != []
    ensures RemoveFirst(hs, hs[0].name) == Without(hs, {hs[0].name})
  {
    var n := hs[0].name;
    var t := hs[1..];
    UniqueTail(hs);
    assert IndexOf(hs, n) == Some(0);
    assert RemoveFirst(hs, n) == t;
    assert Without(hs, {n}) == Without(t, {n});
    forall i | 0 <= i < |t| ensures t[i].name !in {n} {
      assert t[i].name != n;
    }
    WithoutNone(t, {n});
  }

  /** On a registry with unique names, removing by name is filtering by it. */
  lemma {:induction false} RemoveUniqueIsFilter(hs: seq<Action>, n: string)
    requires UniqueNames(hs)
    ensures RemoveFirst(hs, n) == Without(hs, {n})
  {
    if hs != [] {
      var t := hs[1..];
      UniqueTail(hs);
      if hs[0].name == n {
        RemoveHeadIsFilter(hs);
      } else {
        RemoveUniqueIsFilter(t, n);
        assert Without(hs, {n}) == [hs[0]] + Without(t, {n});
        match IndexOf(t, n)
        case None =>
          assert IndexOf(hs, n) == None;
          assert RemoveFirst(t, n) == t && RemoveFirst(hs, n) == hs;
        case Some(i) =>
          assert IndexOf(hs, n) == Some(i + 1);
          assert RemoveFirst(t, n) == t[..i] + t[i + 1..];
          assert hs[..i + 1] == [hs[0]] + t[..i];
          assert hs[i + 2..] == t[i + 1..];
          assert RemoveFirst(hs, n) == hs[..i + 1] + hs[i + 2..];
      }
    }
  }

  lemma {:induction false} WithoutNone(hs: seq<Action>, names: set<string>)
    requires forall i :: 0 <= i < |hs| ==> hs[i].name !in names
    ensures Without(hs, names) == hs
  {
    if hs != [] {
      WithoutNone(hs[1..], names);
    }
  }

  /** Removing a name the tail does not carry only touches the head part. */
  lemma RemoveFirstAppend(a: seq<Action>, b: seq<Action>, n: string)
    requires forall i :: 0 <= i < |b| ==> b[i].name != n
    ensures RemoveFirst(a + b, n) == RemoveFirst(a, n) + b
  {
    match IndexOf(a, n)
    case None =>
      assert IndexOf(a + b, n) == None by {
        forall i | 0 <= i < |a + b| ensures (a + b)[i].name != n {
          if i >= |a| { assert (a + b)[i] == b[i - |a|]; }
        }
      }
    case Some(i) =>
      assert IndexOf(a + b, n) == Some(i) by {
        IndexOfPrefix(a, b, n);
      }
      assert (a + b)[..i] == a[..i];
      assert (a + b)[i + 1..] == a[i + 1..] + b;
  }

  /** A name found in `a` is found at the same place in `a + b`. */
  lemma {:induction false} IndexOfPrefix(a: seq<Action>, b: seq<Action>, n: string)
    requires IndexOf(a, n).Some?
    ensures IndexOf(a + b, n) == IndexOf(a, n)
  {
    if a[0].name != n {
      assert (a + b)[1..] == a[1..] + b;
      IndexOfPrefix(a[1..], b, n);
    }
  }

  lemma NamesSnoc(us: seq<Action>)
    requires us != []
    ensures Names(us) == Names(us[..|us| - 1]) + {us[|us| - 1].name}
  {
    var init := us[..|us| - 1];
    forall x | x in Names(us) ensures x in Names(init) + {us[|us| - 1].name} {
      var i :| 0 <= i < |us| && us[i].name == x;
      if i < |us| - 1 { assert init[i] == us[i]; }
    }
    forall x | x in Names(init) ensures x in Names(us) {
      var i :| 0 <= i < |init| && init[i].name == x;
      assert us[i] == init[i];
    }
  }

  lemma RetypedNames(us: seq<Action>, t: ActionType, n: string)
    requires forall i :: 0 <= i < |us| ==> us[i].name != n
    ensures forall i :: 0 <= i < |RetypeAll(us, t)| ==> RetypeAll(us, t)[i].name != n
  {
  }

  lemma RetypeAllSnoc(us: seq<Action>, t: ActionType)
    requires us != []
    ensures RetypeAll(us, t) == RetypeAll(us[..|us| - 1], t) + [Retype(us[|us| - 1], t)]
  {
    var a := RetypeAll(us, t);
    var b := RetypeAll(us[..|us| - 1], t) + [Retype(us[|us| - 1], t)];
    assert |a| == |b|;
    forall i | 0 <= i < |a| ensures a[i] == b[i] {
      if i < |us| - 1 {
        assert us[..|us| - 1][i] == us[i];
      }
    }
  }

  /** One replay step: the appended handler's name was not yet replayed. */
  lemma ReplayStep(hs: seq<Action>, w: seq<Action>, rs: seq<Action>, u: Action, t: ActionType, names: set<string>)
    requires UniqueNames(hs) && w == Without(hs, names)
    requires forall i :: 0 <= i < |rs| ==> rs[i].name != u.name
    ensures Upsert(w + rs, Retype(u, t)) == Without(hs, names + {u.name}) + (rs + [Retype(u, t)])
  {
    RemoveFirstAppend(w, rs, u.name);
    WithoutUnique(hs, names);
    RemoveUniqueIsFilter(w, u.name);
    WithoutWithout(hs, names, {u.name});
  }

  /**
   * Replaying a table with unique names onto a registry with unique names
   * removes every earlier handler that shares a name with the table and
   * appends the table's handlers, retyped, in table order.
   */
  lemma {:induction false} ReplaySpec(hs: seq<Action>, us: seq<Action>, t: ActionType)
    requires UniqueNames(hs) && UniqueNames(us)
    ensures Replay(hs, us, t) == Without(hs, Names(us)) + RetypeAll(us, t)
  {
    if us == [] {
      assert Names(us) == {};
      WithoutNone(hs, {});
    } else {
      var u := us[|us| - 1];
      var init := us[..|us| - 1];
      assert UniqueNames(init) by {
        forall x, y | 0 <= x < y < |init| ensures init[x].name != init[y].name {
          assert init[x] == us[x] && init[y] == us[y];
        }
      }
      ReplaySpec(hs, init, t);
      var rs := RetypeAll(init, t);
      forall i | 0 <= i < |rs| ensures rs[i].name != u.name {
        assert rs[i].name == us[i].name;
      }
      ReplayStep(hs, Without(hs, Names(init)), rs, u, t, Names(init));
      NamesSnoc(us);
      RetypeAllSnoc(us, t);
    }
  }

  /** Replaying a table with unique names keeps the registry's names unique. */
  lemma ReplayUnique(hs: seq<Action>, us: seq<Action>, t: ActionType)
    requires UniqueNames(hs) && UniqueNames(us)
    ensures UniqueNames(Replay(hs, us, t))
  {
    ReplaySpec(hs, us, t);
    var w := Without(hs, Names(us));
    var rs := RetypeAll(us, t);
    var r := w + rs;
    WithoutUnique(hs, Names(us));
    WithoutElements(hs, Names(us));
    forall x, y | 0 <= x < y < |r| ensures r[x].name != r[y].name {
      if y < |w| {
        assert r[x] == w[x] && r[y] == w[y];
      } else if x >= |w| {
        assert r[x] == rs[x - |w|] && r[y] == rs[y - |w|];
      } else {
        assert r[x] == w[x] && w[x] in w;
        assert r[y] == rs[y - |w|];
        assert us[y - |w|].name in Names(us);
      }
    }
  }

  /** In a registry without duplicates, the upserted handler is the one found by its name. */
  /** Retyping keeps every name at its place, so lookups find the same position. */
  lemma {:induction false} IndexOfRetypeAll(us: seq<Action>, name: string, t: ActionType)
    ensures IndexOf(RetypeAll(us, t), name) == IndexOf(us, name)
  {
    if us != [] {
      IndexOfRetypeAll(us[1..], name, t);
      assert RetypeAll(us, t)[1..] == RetypeAll(us[1..], t);
    }
  }

  lemma UpsertFinds(hs: seq<Action>, a: Action)
    requires UniqueNames(hs)
    ensures Find(Upsert(hs, a), a.name) == Some(a)
  {
    var r := Upsert(hs, a);
    UpsertSpec(hs, a);
    assert r[|r| - 1].name == a.name;
  }

  /** The steps of the `create*` methods (find, remove the match, push) make an upsert; without duplicates it stays so. */
  lemma UpsertSteps(hs: seq<Action>, a: Action, valid: bool)
    requires valid ==> UniqueNames(hs)
    ensures (if Find(hs, a.name).Some? then RemoveFirst(hs, a.name) else hs) + [a] == Upsert(hs, a)
    ensures valid ==> UniqueNames(Upsert(hs, a)) && Count(Upsert(hs, a), a.name) == 1
                      && Find(Upsert(hs, a), a.name) == Some(a)
    ensures Others(Upsert(hs, a), a.name) == Others(hs, a.name)
  {
    RemoveFirstSpec(hs, a.name);
    OthersAppend(RemoveFirst(hs, a.name), [a], a.name);
    assert Others([a], a.name) == [] by { assert [a][1..] == []; }
    if valid {
      UpsertSpec(hs, a);
      UpsertFinds(hs, a);
    }
  }
}
