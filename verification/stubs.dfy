/**
 * The stub classes of the test suite (tests/stubs) as class declarations,
 * and what buildMethodMap makes of each. Property words are parameters: a
 * stub such as GetOnly is the class whose only accessor is "get" + w, and the
 * test's own class is the instance w == "Something".
 */
module Stubs {
  import opened Wrappers
  import opened SnakeCase
  import opened Methods
  import opened Errors
  import opened MethodMap

  /** The methods every user of PropifierTrait gets from the trait itself. */
  const TraitMethods: seq<Method> := [
    Method("__get", 1, Public),
    Method("__set", 2, Public),
    Method("__isset", 1, Public),
    Method("__unset", 1, Public),
    Method("buildMethodMap", 0, Private),
    Method("extractProperties", 1, Private),
    Method("camelToSnake", 1, Private)
  ]

  /** A constructor, which the stubs with an array field declare. */
  const Construct := Method("__construct", 1, Public)

  // ---------------------------------------------------------------------
  // Composition lemmas: discovery and extraction one method or row at a time.

  lemma {:induction false} DiscoverableAppend(a: seq<Method>, b: seq<Method>)
    ensures Discoverable(a + b) == Discoverable(a) + Discoverable(b)
    decreases |b|
  {
    if b == [] {
      assert a + b == a;
    } else {
      var b0 := b[..|b| - 1];
      assert (a + b)[..|a + b| - 1] == a + b0;
      DiscoverableAppend(a, b0);
    }
  }

  /** None of the names carries an accessor prefix. */
  predicate IgnoredNames(ms: seq<Method>) {
    forall i :: 0 <= i < |ms| ==> ClassifyName(ms[i].name).Ignored?
  }

  /** Methods whose names carry no accessor prefix leave the discovered table alone. */
  lemma {:induction false} DiscoverIgnoresTail(ms: seq<Method>, extra: seq<Method>)
    requires IgnoredNames(extra)
    ensures Discover(ms + extra) == Discover(ms)
    decreases |extra|
  {
    if extra == [] {
      assert ms + extra == ms;
    } else {
      var e0 := extra[..|extra| - 1];
      assert (ms + extra)[..|ms + extra| - 1] == ms + e0;
      assert (ms + extra)[|ms + extra| - 1] == extra[|extra| - 1];
      DiscoverIgnoresTail(ms, e0);
    }
  }

  lemma DiscoverOnlyIgnored(extra: seq<Method>)
    requires IgnoredNames(extra)
    ensures Discover(extra) == EmptyTable
  {
    DiscoverIgnoresTail([], extra);
    assert [] + extra == extra;
  }

  /** A name whose first letter begins none of the accessor prefixes. */
  predicate PlainName(name: string) {
    |name| > 0 && name[0] !in {'g', 's', 'i', 'h', 'u'}
  }

  lemma IgnoredByFirstLetter(name: string)
    requires PlainName(name)
    ensures ClassifyName(name).Ignored?
  {
  }

  lemma TraitNamesPlain()
    ensures forall i :: 0 <= i < |TraitMethods| ==> PlainName(TraitMethods[i].name)
  {
  }

  /** Using the trait adds no property to a class. */
  lemma DiscoverWithTrait(own: seq<Method>)
    ensures Discover(Discoverable(own + TraitMethods)) == Discover(Discoverable(own))
  {
    DiscoverableAppend(own, TraitMethods);
    TraitNamesPlain();
    var d := Discoverable(TraitMethods);
    forall i | 0 <= i < |d|
      ensures ClassifyName(d[i].name).Ignored?
    {
      var j :| 0 <= j < |TraitMethods| && TraitMethods[j] == d[i];
      IgnoredByFirstLetter(d[i].name);
    }
    DiscoverIgnoresTail(Discoverable(own), d);
  }

  /** Plain-named methods ahead of the others change nothing either. */
  lemma {:induction false} DiscoverPlainHead(head: seq<Method>, ms: seq<Method>)
    requires forall i :: 0 <= i < |head| ==> PlainName(head[i].name)
    ensures Discover(head + ms) == Discover(ms)
    decreases |ms|
  {
    if ms == [] {
      forall i | 0 <= i < |head|
        ensures ClassifyName(head[i].name).Ignored?
      {
        IgnoredByFirstLetter(head[i].name);
      }
      DiscoverOnlyIgnored(head);
      assert head == head + ms;
    } else {
      var ms0 := ms[..|ms| - 1];
      DiscoverPlainHead(head, ms0);
      assert (head + ms)[..|head + ms| - 1] == head + ms0;
      assert (head + ms)[|head + ms| - 1] == ms[|ms| - 1];
    }
  }

  lemma {:induction false} DiscoverableVisible(ms: seq<Method>)
    requires forall i :: 0 <= i < |ms| ==> ms[i].visibility != Private
    ensures Discoverable(ms) == ms
  {
    if ms != [] {
      DiscoverableVisible(ms[..|ms| - 1]);
      assert ms[..|ms| - 1] + [ms[|ms| - 1]] == ms;
    }
  }

  lemma DiscoverSnoc(ms: seq<Method>, m: Method)
    ensures Discover(ms + [m]) == AddMethod(Discover(ms), m)
  {
    assert (ms + [m])[..|ms + [m]| - 1] == ms;
  }

  /** A class without a custom table, built from its own (non-private) methods alone. */
  lemma BuildOwn(id: ClassId, own: seq<Method>)
    requires forall i :: 0 <= i < |own| ==> own[i].visibility != Private
    ensures Build(ClassDecl(id, own + TraitMethods, [])) == Extract(Discover(own))
  {
    DiscoverWithTrait(own);
    DiscoverableVisible(own);
  }

  /** The same, with plain-named methods such as a constructor declared first. */
  lemma BuildAfterPlain(id: ClassId, head: seq<Method>, own: seq<Method>)
    requires forall i :: 0 <= i < |head| ==> PlainName(head[i].name)
    requires forall i :: 0 <= i < |own| ==> own[i].visibility != Private
    ensures Build(ClassDecl(id, head + own + TraitMethods, [])) == Extract(Discover(own))
  {
    DiscoverWithTrait(head + own);
    DiscoverableAppend(head, own);
    DiscoverableVisible(own);
    var h := Discoverable(head);
    forall i | 0 <= i < |h|
      ensures PlainName(h[i].name)
    {
      assert h[i] in head;
    }
    DiscoverPlainHead(h, own);
  }

  lemma ClassifyGet(w: string)
    ensures ClassifyName("get" + w) == Named(CamelToSnake(w), Some(GetKey))
  {
    assert ("get" + w)[3..] == w;
  }

  lemma ClassifySet(w: string)
    ensures ClassifyName("set" + w) == Named(CamelToSnake(w), Some(SetKey))
  {
    assert ("set" + w)[3..] == w;
    assert ("set" + w)[0] == 's';
  }

  lemma ClassifyItr(w: string)
    ensures ClassifyName("itr" + w) == Named(CamelToSnake(w), Some(ItrKey))
  {
    assert ("itr" + w)[3..] == w;
    assert ("itr" + w)[0] == 'i';
  }

  lemma ClassifyIs(w: string)
    ensures ClassifyName("is" + w) == Named(CamelToSnake(w), Some(GetKey))
  {
    assert ("is" + w)[2..] == w;
    assert ("is" + w)[0] == 'i' && ("is" + w)[1] == 's';
  }

  /** "has" + v keys the row of "s" + v, because the prefix kept is "ha". */
  lemma ClassifyHas(v: string)
    ensures ClassifyName("has" + v) == Named(CamelToSnake("s" + v), None)
  {
    assert ("has" + v)[2..] == "s" + v;
    assert ("has" + v)[0] == 'h';
  }

  /** "unset" + w keys the row of "et" + w, because the prefix cut is "uns". */
  lemma ClassifyUnset(w: string)
    ensures ClassifyName("unset" + w) == Named(CamelToSnake("et" + w), Some(UnsetKey))
  {
    assert ("unset" + w)[3..] == "et" + w;
    assert ("unset" + w)[0] == 'u';
  }

  /** The table that lists p after the rows of t. */
  function Snoc(t: Table, p: string, row: Slots): (u: Table)
    requires t.Valid() && p !in t.rows
    ensures u.Valid()
  {
    Table(t.order + [p], t.rows[p := row])
  }

  lemma {:induction false} ExtractPrefixAgree(t: Table, u: Table, n: nat)
    requires t.Valid() && u.Valid() && n <= |t.order| && n <= |u.order|
    requires forall i :: 0 <= i < n ==> u.order[i] == t.order[i] && u.rows[t.order[i]] == t.rows[t.order[i]]
    ensures ExtractPrefix(u, n) == ExtractPrefix(t, n)
  {
    if n > 0 {
      ExtractPrefixAgree(t, u, n - 1);
    }
  }

  /** Extraction of a table with one more row: the old result, then that row's verdict. */
  lemma ExtractSnoc(t: Table, p: string, row: Slots)
    requires t.Valid() && p !in t.rows
    ensures Extract(t).Failure? ==> Extract(Snoc(t, p, row)) == Extract(t)
    ensures Extract(t).Success? ==>
              Extract(Snoc(t, p, row)) ==
                match ClassifyEntry(row)
                case Failure(e) => Failure(e)
                case Success(None) => Extract(t)
                case Success(Some(shape)) => Success(Extract(t).value[p := shape])
  {
    var u := Snoc(t, p, row);
    ExtractPrefixAgree(t, u, |t.order|);
    assert u.order[|t.order|] == p;
  }

  /** Extraction of a one-row table is that row's verdict. */
  lemma ExtractSingleRow(p: string, row: Slots)
    ensures Extract(Snoc(EmptyTable, p, row)) ==
              match ClassifyEntry(row)
              case Failure(e) => Failure(e)
              case Success(None) => Success(map[])
              case Success(Some(shape)) => Success(map[p := shape])
  {
    ExtractSnoc(EmptyTable, p, row);
    assert Extract(EmptyTable) == Success(map[]);
  }

  /** One discovered method in an otherwise empty class: one row with one slot. */
  lemma ExtractOne(m: Method, p: string, k: SlotKey)
    requires ClassifyName(m.name) == Named(p, Some(k))
    ensures Discover([m]) == Snoc(EmptyTable, p, NoSlots.Put(k, m))
    ensures Extract(Discover([m])) ==
              match ClassifyEntry(NoSlots.Put(k, m))
              case Failure(e) => Failure(e)
              case Success(None) => Success(map[])
              case Success(Some(shape)) => Success(map[p := shape])
  {
    DiscoverSnoc([], m);
    assert [] + [m] == [m];
    ExtractSnoc(EmptyTable, p, NoSlots.Put(k, m));
  }

  /** A method naming a property not yet listed appends its row. */
  lemma AddMethodNew(t: Table, m: Method, p: string, k: Option<SlotKey>)
    requires t.Valid() && p !in t.rows
    requires ClassifyName(m.name) == Named(p, k)
    ensures AddMethod(t, m) == Snoc(t, p, if k.Some? then NoSlots.Put(k.value, m) else NoSlots)
  {
  }

  /** A method naming a listed property overwrites one slot of its row, or nothing. */
  lemma AddMethodOld(t: Table, m: Method, p: string, k: Option<SlotKey>)
    requires t.Valid() && p in t.rows
    requires ClassifyName(m.name) == Named(p, k)
    ensures AddMethod(t, m) == if k.Some? then Table(t.order, t.rows[p := t.rows[p].Put(k.value, m)]) else t
  {
  }

  /** Adding a method of the only listed property rewrites that one row. */
  lemma AddMethodSingle(p: string, row: Slots, m: Method, k: Option<SlotKey>)
    requires ClassifyName(m.name) == Named(p, k)
    ensures AddMethod(Snoc(EmptyTable, p, row), m) ==
              Snoc(EmptyTable, p, if k.Some? then row.Put(k.value, m) else row)
  {
    var t := Snoc(EmptyTable, p, row);
    AddMethodOld(t, m, p, k);
    if k.Some? {
      assert t.rows[p := row.Put(k.value, m)] == map[p := row.Put(k.value, m)];
    }
  }

  /** A getter and a setter of the same property, in that order. */
  lemma DiscoverGetSet(g: Method, s: Method, p: string)
    requires ClassifyName(g.name) == Named(p, Some(GetKey))
    requires ClassifyName(s.name) == Named(p, Some(SetKey))
    ensures Discover([g, s]) == Snoc(EmptyTable, p, Slots(Some(g), Some(s), None, None))
  {
    DiscoverSnoc([], g);
    assert [] + [g] == [g];
    AddMethodNew(EmptyTable, g, p, Some(GetKey));
    DiscoverSnoc([g], s);
    assert [g] + [s] == [g, s];
    AddMethodSingle(p, NoSlots.Put(GetKey, g), s, Some(SetKey));
  }

  /** A setter, then a getter, of the same property. */
  lemma DiscoverSetGet(s: Method, g: Method, p: string)
    requires ClassifyName(s.name) == Named(p, Some(SetKey))
    requires ClassifyName(g.name) == Named(p, Some(GetKey))
    ensures Discover([s, g]) == Snoc(EmptyTable, p, Slots(Some(g), Some(s), None, None))
  {
    DiscoverSnoc([], s);
    assert [] + [s] == [s];
    AddMethodNew(EmptyTable, s, p, Some(SetKey));
    DiscoverSnoc([s], g);
    assert [s] + [g] == [s, g];
    AddMethodSingle(p, NoSlots.Put(SetKey, s), g, Some(GetKey));
  }

  /** A class whose only own method fills slot k of row p. */
  lemma BuildSingle(id: ClassId, m: Method, p: string, k: SlotKey)
    requires m.visibility != Private
    requires ClassifyName(m.name) == Named(p, Some(k))
    ensures Build(ClassDecl(id, [m] + TraitMethods, [])) ==
              match ClassifyEntry(NoSlots.Put(k, m))
              case Failure(e) => Failure(e)
              case Success(None) => Success(map[])
              case Success(Some(shape)) => Success(map[p := shape])
  {
    BuildOwn(id, [m]);
    ExtractOne(m, p, k);
  }

  // ---------------------------------------------------------------------
  // tests/stubs/GetOnly.php: a protected zero-argument getter.

  function GetOnly(w: string): ClassDecl {
    ClassDecl("GetOnly", [Method("get" + w, 0, Protected)] + TraitMethods, [])
  }

  lemma GetOnlyBuild(w: string)
    ensures Build(GetOnly(w)) == Success(map[CamelToSnake(w) := Shape(Some(Call("get" + w)), None)])
  {
    var m := Method("get" + w, 0, Protected);
    ClassifyGet(w);
    BuildSingle("GetOnly", m, CamelToSnake(w), GetKey);
  }

  // tests/stubs/SetOnly.php: a protected one-argument setter.

  function SetOnly(w: string): ClassDecl {
    ClassDecl("SetOnly", [Method("set" + w, 1, Protected)] + TraitMethods, [])
  }

  lemma SetOnlyBuild(w: string)
    ensures Build(SetOnly(w)) == Success(map[CamelToSnake(w) := Shape(None, Some(Call("set" + w)))])
  {
    var m := Method("set" + w, 1, Protected);
    ClassifySet(w);
    BuildSingle("SetOnly", m, CamelToSnake(w), SetKey);
  }

  // tests/stubs/ArraySetOnly.php and tests/stubs/InvalidSet.php: a two-argument
  // setter alone. Both become a setter-only indexed property; the proxy sits
  // in the get slot, so the property cannot be assigned as a whole.

  function ArraySetOnly(w: string): ClassDecl {
    ClassDecl("ArraySetOnly", [Method("set" + w, 2, Protected)] + TraitMethods, [])
  }

  function InvalidSet(w: string): ClassDecl {
    ClassDecl("InvalidSet", [Method("set" + w, 2, Public)] + TraitMethods, [])
  }

  lemma ArraySetOnlyBuild(w: string)
    ensures Build(ArraySetOnly(w)) ==
              Success(map[CamelToSnake(w) := Shape(Some(Proxy(None, Some(Method("set" + w, 2, Protected)), None)), None)])
  {
    var m := Method("set" + w, 2, Protected);
    ClassifySet(w);
    BuildSingle("ArraySetOnly", m, CamelToSnake(w), SetKey);
  }

  lemma InvalidSetBuild(w: string)
    ensures Build(InvalidSet(w)) ==
              Success(map[CamelToSnake(w) := Shape(Some(Proxy(None, Some(Method("set" + w, 2, Public)), None)), None)])
  {
    var m := Method("set" + w, 2, Public);
    ClassifySet(w);
    BuildSingle("InvalidSet", m, CamelToSnake(w), SetKey);
  }

  // tests/stubs/ArrayGetOnly.php: a one-argument getter alone.

  function ArrayGetOnly(w: string): ClassDecl {
    ClassDecl("ArrayGetOnly", [Method("get" + w, 1, Protected)] + TraitMethods, [])
  }

  lemma ArrayGetOnlyBuild(w: string)
    ensures Build(ArrayGetOnly(w)) ==
              Success(map[CamelToSnake(w) := Shape(Some(Proxy(Some(Method("get" + w, 1, Protected)), None, None)), None)])
  {
    var m := Method("get" + w, 1, Protected);
    ClassifyGet(w);
    BuildSingle("ArrayGetOnly", m, CamelToSnake(w), GetKey);
  }

  // tests/stubs/ArrayItrOnly.php: an iterator alone names no property.

  function ArrayItrOnly(w: string): ClassDecl {
    ClassDecl("ArrayItrOnly", [Construct] + [Method("itr" + w, 0, Protected)] + TraitMethods, [])
  }

  lemma ArrayItrOnlyBuild(w: string)
    ensures Build(ArrayItrOnly(w)) == Success(map[])
  {
    var m := Method("itr" + w, 0, Protected);
    BuildAfterPlain("ArrayItrOnly", [Construct], [m]);
    ClassifyItr(w);
    ExtractOne(m, CamelToSnake(w), ItrKey);
  }

  // tests/stubs/NotAccessibleMethods.php: a private getter is not reflected.

  function NonAccessibleMethods(w: string): ClassDecl {
    ClassDecl("NonAccessibleMethods", [Method("get" + w, 0, Private)] + TraitMethods, [])
  }

  lemma NonAccessibleMethodsBuild(w: string)
    ensures Build(NonAccessibleMethods(w)) == Success(map[])
  {
    var m := Method("get" + w, 0, Private);
    DiscoverWithTrait([m]);
    assert Discoverable([m]) == [] by {
      assert [m][..0] == [];
    }
  }

  // tests/stubs/Mismatch.php: a one-argument getter with a one-argument setter.

  function Mismatch(w: string): ClassDecl {
    ClassDecl("Mismatch", [Method("get" + w, 1, Protected), Method("set" + w, 1, Protected)] + TraitMethods, [])
  }

  lemma MismatchBuild(w: string)
    ensures Build(Mismatch(w)) ==
              Failure(MismatchedProperties(Some(Method("get" + w, 1, Protected)), Some(Method("set" + w, 1, Protected))))
    ensures Build(Mismatch(w)).error.ReportedName() == "get" + w
  {
    var g := Method("get" + w, 1, Protected);
    var s := Method("set" + w, 1, Protected);
    BuildOwn("Mismatch", [g, s]);
    ClassifyGet(w);
    ClassifySet(w);
    DiscoverGetSet(g, s, CamelToSnake(w));
    ExtractSnoc(EmptyTable, CamelToSnake(w), Slots(Some(g), Some(s), None, None));
  }

  /** A getter, a setter and an iterator of one property, in that order. */
  lemma DiscoverTriple(g: Method, s: Method, i: Method, p: string)
    requires ClassifyName(g.name) == Named(p, Some(GetKey))
    requires ClassifyName(s.name) == Named(p, Some(SetKey))
    requires ClassifyName(i.name) == Named(p, Some(ItrKey))
    ensures Discover([g, s, i]) == Snoc(EmptyTable, p, Slots(Some(g), Some(s), Some(i), None))
  {
    DiscoverGetSet(g, s, p);
    DiscoverSnoc([g, s], i);
    assert [g, s] + [i] == [g, s, i];
    AddMethodSingle(p, Slots(Some(g), Some(s), None, None), i, Some(ItrKey));
  }

  /**
   * Two methods that make up row p, then a method m keying q with slot k:
   * the row of q is added or, when q is p, m overwrites slot k of p's row.
   */
  lemma DiscoverRowThen(a: Method, b: Method, m: Method, p: string, row: Slots, q: string, k: Option<SlotKey>)
    requires Discover([a, b]) == Snoc(EmptyTable, p, row)
    requires ClassifyName(m.name) == Named(q, k)
    ensures Discover([a, b, m]) ==
              if q != p then Snoc(Snoc(EmptyTable, p, row), q, if k.Some? then NoSlots.Put(k.value, m) else NoSlots)
              else Snoc(EmptyTable, p, if k.Some? then row.Put(k.value, m) else row)
  {
    DiscoverSnoc([a, b], m);
    assert [a, b] + [m] == [a, b, m];
    if q != p {
      AddMethodNew(Snoc(EmptyTable, p, row), m, q, k);
    } else {
      AddMethodSingle(p, row, m, k);
    }
  }

  /** A two-row table extracts to both shapes when both rows pass. */
  lemma ExtractTwoRows(p: string, row: Slots, q: string, row2: Slots)
    requires p != q
    requires ClassifyEntry(row).Success? && ClassifyEntry(row2).Success?
    ensures Extract(Snoc(EmptyTable, p, row)).Success?
    ensures var t := Snoc(EmptyTable, p, row);
            Extract(Snoc(t, q, row2)) ==
              match ClassifyEntry(row2)
              case Failure(_) => Extract(t)
              case Success(None) => Extract(t)
              case Success(Some(shape)) => Success(Extract(t).value[q := shape])
  {
    var t := Snoc(EmptyTable, p, row);
    ExtractSingleRow(p, row);
    ExtractSnoc(t, q, row2);
  }

  // tests/stubs/ArrayAll.php: getter, setter and iterator of one indexed property.

  function ArrayAll(w: string): ClassDecl {
    ClassDecl("ArrayAll",
      [Construct] + [Method("get" + w, 1, Protected), Method("set" + w, 2, Protected), Method("itr" + w, 0, Protected)]
      + TraitMethods, [])
  }

  lemma ArrayAllBuild(w: string)
    ensures var proxy := Proxy(Some(Method("get" + w, 1, Protected)), Some(Method("set" + w, 2, Protected)),
                               Some(Method("itr" + w, 0, Protected)));
            Build(ArrayAll(w)) == Success(map[CamelToSnake(w) := Shape(Some(proxy), Some(proxy))])
  {
    var g := Method("get" + w, 1, Protected);
    var s := Method("set" + w, 2, Protected);
    var i := Method("itr" + w, 0, Protected);
    var p := CamelToSnake(w);
    BuildAfterPlain("ArrayAll", [Construct], [g, s, i]);
    ClassifyGet(w);
    ClassifySet(w);
    ClassifyItr(w);
    DiscoverTriple(g, s, i, p);
    ExtractSingleRow(p, Slots(Some(g), Some(s), Some(i), None));
  }

  // tests/stubs/BooleanProperties.php: isW/setW, and a hasV that adds no property.

  function BooleanProperties(w: string, v: string): ClassDecl {
    ClassDecl("BooleanProperties",
      [Method("is" + w, 0, Public), Method("set" + w, 1, Public), Method("has" + v, 0, Public)] + TraitMethods, [])
  }

  lemma BooleanPropertiesBuild(w: string, v: string)
    ensures Build(BooleanProperties(w, v)) ==
              Success(map[CamelToSnake(w) := Shape(Some(Call("is" + w)), Some(Call("set" + w)))])
  {
    var g := Method("is" + w, 0, Public);
    var s := Method("set" + w, 1, Public);
    var h := Method("has" + v, 0, Public);
    var p := CamelToSnake(w);
    var q := CamelToSnake("s" + v);
    var row := Slots(Some(g), Some(s), None, None);
    BuildOwn("BooleanProperties", [g, s, h]);
    ClassifyIs(w);
    ClassifySet(w);
    ClassifyHas(v);
    DiscoverGetSet(g, s, p);
    DiscoverRowThen(g, s, h, p, row, q, None);
    ExtractSingleRow(p, row);
    if q != p {
      ExtractTwoRows(p, row, q, NoSlots);
    }
  }

  // tests/stubs/UnsettableProperty.php: setW, getW and unsetW; the unset
  // method keys the row of "et" + w and is never extracted.

  function UnsettableProperty(w: string): ClassDecl {
    ClassDecl("UnsettableProperty",
      [Method("set" + w, 1, Public), Method("get" + w, 0, Public), Method("unset" + w, 0, Public)] + TraitMethods, [])
  }

  lemma UnsettablePropertyBuild(w: string)
    ensures Build(UnsettableProperty(w)) ==
              Success(map[CamelToSnake(w) := Shape(Some(Call("get" + w)), Some(Call("set" + w)))])
  {
    var s := Method("set" + w, 1, Public);
    var g := Method("get" + w, 0, Public);
    var u := Method("unset" + w, 0, Public);
    var p := CamelToSnake(w);
    var q := CamelToSnake("et" + w);
    var row := Slots(Some(g), Some(s), None, None);
    BuildOwn("UnsettableProperty", [s, g, u]);
    ClassifySet(w);
    ClassifyGet(w);
    ClassifyUnset(w);
    DiscoverSetGet(s, g, p);
    DiscoverRowThen(s, g, u, p, row, q, Some(UnsetKey));
    if q != p {
      ExtractSingleRow(p, row);
      ExtractTwoRows(p, row, q, NoSlots.Put(UnsetKey, u));
    } else {
      ExtractSingleRow(p, row.Put(UnsetKey, u));
    }
  }

  // tests/stubs/CustomMapping.php and tests/stubs/CustomMethodNames.php: no
  // accessor-named methods, and a custom table naming a getter and a setter.

  function CustomMapping(id: ClassId, p: string, getName: string, setName: string): ClassDecl {
    ClassDecl(id, [Method(getName, 0, Protected), Method(setName, 1, Protected)] + TraitMethods,
      [(p, [("get", getName), ("set", setName)])])
  }

  /** The first of two differently named methods is found by its name, the second by its own. */
  lemma FindLeadingPair(g: Method, s: Method, rest: seq<Method>)
    requires !SameName(g.name, s.name)
    ensures FindMethod([g, s] + rest, g.name) == Some(g)
    ensures FindMethod([g, s] + rest, s.name) == Some(s)
  {
    assert ([g, s] + rest)[1..] == [s] + rest;
  }

  /** One (slot key, method name) pair whose method exists fills that slot. */
  lemma MergePairFound(t: Table, p: string, key: string, name: string, all: seq<Method>, m: Method, k: SlotKey)
    requires t.Valid() && p in t.rows
    requires FindMethod(all, name) == Some(m) && KeyOf(key) == Some(k)
    ensures MergePair(t, p, (key, name), all) == t.Fill(p, k, m)
  {
  }

  lemma MergeCustomSingle(t: Table, p: string, pairs: seq<(string, string)>, all: seq<Method>)
    requires t.Valid()
    ensures MergeCustom(t, [(p, pairs)], all) == MergePairs(t.Touch(p), p, pairs, all)
  {
    assert [(p, pairs)][..0] == [];
  }

  /** The inner foreach over a two-pair entry. */
  lemma MergePairsTwo(t: Table, p: string, a: (string, string), b: (string, string), all: seq<Method>)
    requires t.Valid() && p in t.rows
    ensures MergePairs(t, p, [a, b], all) == MergePair(MergePair(t, p, a, all), p, b, all)
  {
    var q := [a, b][..1];
    assert q[..0] == [] && q[0] == a;
    assert MergePairs(t, p, q, all) == MergePair(t, p, a, all);
  }

  /** One custom entry naming a getter and a setter that both exist. */
  lemma MergeGetSet(p: string, gk: string, getName: string, sk: string, setName: string, all: seq<Method>, g: Method, s: Method)
    requires KeyOf(gk) == Some(GetKey) && KeyOf(sk) == Some(SetKey)
    requires FindMethod(all, getName) == Some(g) && FindMethod(all, setName) == Some(s)
    ensures MergeCustom(EmptyTable, [(p, [(gk, getName), (sk, setName)])], all) ==
              Snoc(EmptyTable, p, Slots(Some(g), Some(s), None, None))
  {
    var t1 := EmptyTable.Touch(p);
    var t2 := t1.Fill(p, GetKey, g);
    MergeCustomSingle(EmptyTable, p, [(gk, getName), (sk, setName)], all);
    MergePairsTwo(t1, p, (gk, getName), (sk, setName), all);
    MergePairFound(t1, p, gk, getName, all, g, GetKey);
    MergePairFound(t2, p, sk, setName, all, s, SetKey);
    assert t2.Fill(p, SetKey, s).rows == EmptyTable.rows[p := Slots(Some(g), Some(s), None, None)];
  }

  /** Methods that carry no accessor prefix give no row of their own. */
  lemma DiscoverAllIgnored(own: seq<Method>)
    requires IgnoredNames(own)
    requires forall i :: 0 <= i < |own| ==> own[i].visibility != Private
    ensures Discover(Discoverable(own + TraitMethods)) == EmptyTable
  {
    DiscoverWithTrait(own);
    DiscoverableVisible(own);
    DiscoverOnlyIgnored(own);
  }

  lemma CustomMappingBuild(id: ClassId, p: string, getName: string, setName: string)
    requires ClassifyName(getName).Ignored? && ClassifyName(setName).Ignored?
    requires !SameName(getName, setName)
    ensures Build(CustomMapping(id, p, getName, setName)) ==
              Success(map[p := Shape(Some(Call(getName)), Some(Call(setName)))])
  {
    var g := Method(getName, 0, Protected);
    var s := Method(setName, 1, Protected);
    var d := CustomMapping(id, p, getName, setName);
    DiscoverAllIgnored([g, s]);
    FindLeadingPair(g, s, TraitMethods);
    MergeGetSet(p, "get", getName, "set", setName, d.methods, g, s);
    ExtractSingleRow(p, Slots(Some(g), Some(s), None, None));
  }
}
