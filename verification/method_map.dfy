/**
 * The property map of PropifierTrait as pure functions: the classification of
 * method names (the first loop of buildMethodMap), the merge of the custom
 * $propertyMap (its second loop), the arity rules of extractProperties, and the
 * once-per-class cache. The imperative code in module Propifier is proved equal
 * to these functions; the lemmas here state what the rules promise.
 */
module MethodMap {
  import opened Wrappers
  import opened SnakeCase
  import opened Methods
  import opened Errors

  // ---------------------------------------------------------------------------
  // The working array of buildMethodMap
  // ---------------------------------------------------------------------------

  /** The four keys of a row: 'get', 'set', 'itr', 'unset'. */
  datatype SlotKey = GetKey | SetKey | ItrKey | UnsetKey

  /** The 'get', 'set', 'itr' and 'unset' slots of one row; None is PHP null. */
  datatype Slots = Slots(getter: Option<Method>, setter: Option<Method>, itr: Option<Method>, unsetter: Option<Method>)
  {
    function At(k: SlotKey): (r: Option<Method>) {
      match k
      case GetKey => getter
      case SetKey => setter
      case ItrKey => itr
      case UnsetKey => unsetter
    }

    function Put(k: SlotKey, m: Method): (r: Slots)
      ensures r.At(k) == Some(m)
      ensures forall j :: j != k ==> r.At(j) == At(j)
    {
      match k
      case GetKey => this.(getter := Some(m))
      case SetKey => this.(setter := Some(m))
      case ItrKey => this.(itr := Some(m))
      case UnsetKey => this.(unsetter := Some(m))
    }
  }

  /** ['get' => null, 'set' => null, 'itr' => null, 'unset' => null] */
  const NoSlots := Slots(None, None, None, None)

  /**
   * $methodMap: a PHP array from property name to row. PHP arrays remember
   * insertion order, and extractProperties stops at the first bad row in that
   * order, so the keys are kept in `order`.
   */
  datatype Table = Table(order: seq<string>, rows: map<string, Slots>)
  {
    ghost predicate Valid() {
      (forall i, j :: 0 <= i < j < |order| ==> order[i] != order[j]) &&
      (forall p :: p in rows <==> p in order)
    }

    /** if (!isset($methodMap[$p])) $methodMap[$p] = [all null]; */
    function Touch(p: string): (t: Table)
      requires Valid()
      ensures t.Valid()
      ensures p in t.rows
      ensures p in rows ==> t == this
      ensures p !in rows ==> t.order == order + [p] && t.rows == rows[p := NoSlots]
    {
      if p in rows then this else Table(order + [p], rows[p := NoSlots])
    }

    /** $methodMap[$p][$k] = $m; */
    function Fill(p: string, k: SlotKey, m: Method): (t: Table)
      requires Valid() && p in rows
      ensures t.Valid()
      ensures t.order == order && t.rows == rows[p := rows[p].Put(k, m)]
    {
      Table(order, rows[p := rows[p].Put(k, m)])
    }
  }

  const EmptyTable := Table([], map[])

  // ---------------------------------------------------------------------------
  // Naming convention (src/PropifierTrait.php:148-177)
  // ---------------------------------------------------------------------------

  /** How one method name contributes to the working array. */
  datatype Naming =
    | Ignored
      /** The row `property` is created if absent; `slot` (if any) is then overwritten. */
    | Named(property: string, slot: Option<SlotKey>)

  /**
   * The prefix rules in the order the code tests them. A name starting with
   * "has" takes the two-letter prefix "ha", which fills no slot.
   */
  function ClassifyName(name: string): (r: Naming) {
    if "get" <= name then Named(CamelToSnake(name[3..]), Some(GetKey))
    else if "set" <= name then Named(CamelToSnake(name[3..]), Some(SetKey))
    else if "itr" <= name then Named(CamelToSnake(name[3..]), Some(ItrKey))
    else if "is" <= name then Named(CamelToSnake(name[2..]), Some(GetKey))
    else if "has" <= name then Named(CamelToSnake(name[2..]), None)
    else if "uns" <= name then Named(CamelToSnake(name[3..]), Some(UnsetKey))
    else Ignored
  }

  /**
   * Reading a classification backwards: which prefixes can produce it. Every
   * filled get slot comes from a get/is name, set from set, itr from itr,
   * unset from uns; a row without a slot comes from has; and exactly the names
   * with none of the six prefixes are skipped.
   */
  lemma ClassifyNameInverse(name: string)
    ensures ClassifyName(name).Ignored? <==>
              !("get" <= name || "set" <= name || "itr" <= name || "is" <= name || "has" <= name || "uns" <= name)
    ensures ClassifyName(name).Named? ==> NoUpper(ClassifyName(name).property)
    ensures ClassifyName(name).Named? && ClassifyName(name).slot == Some(GetKey) ==>
              ("get" <= name && ClassifyName(name).property == CamelToSnake(name[3..])) ||
              ("is" <= name && ClassifyName(name).property == CamelToSnake(name[2..]))
    ensures ClassifyName(name).Named? && ClassifyName(name).slot == Some(SetKey) ==>
              "set" <= name && ClassifyName(name).property == CamelToSnake(name[3..])
    ensures ClassifyName(name).Named? && ClassifyName(name).slot == Some(ItrKey) ==>
              "itr" <= name && ClassifyName(name).property == CamelToSnake(name[3..])
    ensures ClassifyName(name).Named? && ClassifyName(name).slot == Some(UnsetKey) ==>
              "uns" <= name && ClassifyName(name).property == CamelToSnake(name[3..])
    ensures ClassifyName(name).Named? && ClassifyName(name).slot.None? <==>
              "has" <= name && !("is" <= name)
  {
    if |name| >= 2 {
      CamelToSnakeNoUpper(name[2..]);
    }
    if |name| >= 3 {
      CamelToSnakeNoUpper(name[3..]);
    }
  }

  /** One iteration of the first foreach of buildMethodMap. */
  function AddMethod(t: Table, m: Method): (r: Table)
    requires t.Valid()
    ensures r.Valid()
  {
    match ClassifyName(m.name)
    case Ignored => t
    case Named(p, None) => t.Touch(p)
    case Named(p, Some(k)) => t.Touch(p).Fill(p, k, m)
  }

  /** The working array after the first foreach over the given methods. */
  function Discover(ms: seq<Method>): (t: Table)
    ensures t.Valid()
  {
    if ms == [] then EmptyTable else AddMethod(Discover(ms[..|ms| - 1]), ms[|ms| - 1])
  }

  /** A method whose name creates the row p. */
  predicate Mentions(m: Method, p: string) {
    ClassifyName(m.name).Named? && ClassifyName(m.name).property == p
  }

  /** Reference definition of a slot: the LAST method whose name fills slot k of row p. */
  function LastFilling(ms: seq<Method>, p: string, k: SlotKey): (r: Option<Method>)
    ensures r.Some? ==> r.value in ms && ClassifyName(r.value.name) == Named(p, Some(k))
  {
    if ms == [] then None
    else if ClassifyName(ms[|ms| - 1].name) == Named(p, Some(k)) then Some(ms[|ms| - 1])
    else LastFilling(ms[..|ms| - 1], p, k)
  }

  /**
   * The first loop, characterised: a row exists exactly for the properties some
   * method name mentions, and each slot holds the last method that fills it
   * (later methods overwrite earlier ones; has* and skipped names fill nothing).
   */
  lemma {:induction false} DiscoverRows(ms: seq<Method>, p: string)
    ensures p in Discover(ms).rows <==> exists m :: m in ms && Mentions(m, p)
    ensures p in Discover(ms).rows ==>
              forall k :: Discover(ms).rows[p].At(k) == LastFilling(ms, p, k)
  {
    if ms != [] {
      var init, last := ms[..|ms| - 1], ms[|ms| - 1];
      assert ms == init + [last];
      DiscoverRows(init, p);
      var t0 := Discover(init);
      assert Discover(ms) == AddMethod(t0, last);
      assert forall m :: m in ms <==> m in init || m == last;
      if p in t0.rows {
        var m :| m in init && Mentions(m, p);
        assert m in ms;
      } else {
        forall k ensures LastFilling(init, p, k) == None {
          if LastFilling(init, p, k).Some? {
            assert Mentions(LastFilling(init, p, k).value, p);
          }
        }
      }
      match ClassifyName(last.name)
      case Ignored =>
        assert !Mentions(last, p);
      case Named(q, None) =>
        assert Mentions(last, p) <==> q == p;
      case Named(q, Some(k0)) =>
        assert Mentions(last, p) <==> q == p;
        if q == p {
          assert p in Discover(ms).rows;
          assert Discover(ms).rows[p] == t0.Touch(p).rows[p].Put(k0, last);
        }
    }
  }

  /** Private methods never reach a slot (src/PropifierTrait.php:144). */
  lemma DiscoveredAreVisible(ms: seq<Method>, p: string, k: SlotKey)
    requires p in Discover(Discoverable(ms)).rows
    ensures Discover(Discoverable(ms)).rows[p].At(k).Some? ==>
              Discover(Discoverable(ms)).rows[p].At(k).value.visibility != Private
  {
    DiscoverRows(Discoverable(ms), p);
  }

  // ---------------------------------------------------------------------------
  // Custom $propertyMap merge (src/PropifierTrait.php:180-193)
  // ---------------------------------------------------------------------------

  /** The slot a custom key writes; any other key lands in the row where nothing reads it. */
  function KeyOf(key: string): (r: Option<SlotKey>) {
    if key == "get" then Some(GetKey)
    else if key == "set" then Some(SetKey)
    else if key == "itr" then Some(ItrKey)
    else if key == "unset" then Some(UnsetKey)
    else None
  }

  /** One iteration of the inner foreach: fill the slot only if the named method exists. */
  function MergePair(t: Table, p: string, pair: (string, string), all: seq<Method>): (r: Table)
    requires t.Valid() && p in t.rows
    ensures r.Valid() && r.order == t.order && p in r.rows
  {
    match FindMethod(all, pair.1)
    case None => t
    case Some(m) =>
      match KeyOf(pair.0)
      case None => t
      case Some(k) => t.Fill(p, k, m)
  }

  /** The inner foreach over the (slot key => method name) pairs of row p. */
  function MergePairs(t: Table, p: string, pairs: seq<(string, string)>, all: seq<Method>): (r: Table)
    requires t.Valid() && p in t.rows
    ensures r.Valid() && r.order == t.order && p in r.rows
  {
    if pairs == [] then t
    else MergePair(MergePairs(t, p, pairs[..|pairs| - 1], all), p, pairs[|pairs| - 1], all)
  }

  /** The outer foreach: property names are used verbatim, without camelToSnake. */
  function MergeCustom(t: Table, custom: CustomMap, all: seq<Method>): (r: Table)
    requires t.Valid()
    ensures r.Valid()
  {
    if custom == [] then t
    else
      var r0 := MergeCustom(t, custom[..|custom| - 1], all);
      var (p, pairs) := custom[|custom| - 1];
      MergePairs(r0.Touch(p), p, pairs, all)
  }

  /** The inner fold, one pair further. */
  lemma MergePairsStep(t: Table, p: string, pairs: seq<(string, string)>, j: nat, all: seq<Method>)
    requires t.Valid() && p in t.rows && j < |pairs|
    ensures MergePairs(t, p, pairs[..j + 1], all) == MergePair(MergePairs(t, p, pairs[..j], all), p, pairs[j], all)
  {
    assert pairs[..j + 1][..j] == pairs[..j];
  }

  /** The outer fold, one custom entry further. */
  lemma MergeCustomStep(t: Table, custom: CustomMap, i: nat, all: seq<Method>)
    requires t.Valid() && i < |custom|
    ensures MergeCustom(t, custom[..i + 1], all) ==
              MergePairs(MergeCustom(t, custom[..i], all).Touch(custom[i].0), custom[i].0, custom[i].1, all)
  {
    assert custom[..i + 1][..i] == custom[..i];
  }

  /** Reference definition: the method the last resolvable pair for slot k names, if any. */
  function LastResolved(pairs: seq<(string, string)>, k: SlotKey, all: seq<Method>): (r: Option<Method>) {
    if pairs == [] then None
    else
      var (key, name) := pairs[|pairs| - 1];
      if KeyOf(key) == Some(k) && FindMethod(all, name).Some? then FindMethod(all, name)
      else LastResolved(pairs[..|pairs| - 1], k, all)
  }

  /**
   * A custom row overwrites a slot only with a method that exists; a slot
   * whose named method is missing keeps its prior value; other rows and the
   * key order are untouched.
   */
  lemma {:induction false} MergePairsSlots(t: Table, p: string, pairs: seq<(string, string)>, all: seq<Method>)
    requires t.Valid() && p in t.rows
    ensures forall k :: MergePairs(t, p, pairs, all).rows[p].At(k) == LastResolved(pairs, k, all).OrElse(t.rows[p].At(k))
    ensures forall q :: q != p && q in t.rows ==> MergePairs(t, p, pairs, all).rows[q] == t.rows[q]
    ensures MergePairs(t, p, pairs, all).rows.Keys == t.rows.Keys
  {
    if pairs != [] {
      MergePairsSlots(t, p, pairs[..|pairs| - 1], all);
    }
  }

  /** The names listed in a custom table. */
  function Listed(custom: CustomMap): set<string> {
    set i | 0 <= i < |custom| :: custom[i].0
  }

  lemma ListedSnoc(custom: CustomMap)
    requires custom != []
    ensures Listed(custom) == Listed(custom[..|custom| - 1]) + {custom[|custom| - 1].0}
  {
    var init := custom[..|custom| - 1];
    forall q | q in Listed(custom) ensures q in Listed(init) + {custom[|custom| - 1].0} {
      var i :| 0 <= i < |custom| && custom[i].0 == q;
      if i < |init| {
        assert init[i].0 == q;
      }
    }
    forall q | q in Listed(init) ensures q in Listed(custom) {
      var i :| 0 <= i < |init| && init[i].0 == q;
      assert custom[i].0 == q;
    }
  }

  /**
   * The merge creates a row for every listed name, verbatim, and leaves the
   * rows of unlisted names as discovery made them.
   */
  lemma {:induction false} MergeCustomRows(t: Table, custom: CustomMap, all: seq<Method>)
    requires t.Valid()
    ensures MergeCustom(t, custom, all).rows.Keys == t.rows.Keys + Listed(custom)
    ensures forall q :: q in t.rows && q !in Listed(custom) ==> MergeCustom(t, custom, all).rows[q] == t.rows[q]
  {
    if custom != [] {
      var init := custom[..|custom| - 1];
      MergeCustomRows(t, init, all);
      var r0 := MergeCustom(t, init, all);
      var (p, pairs) := custom[|custom| - 1];
      MergePairsSlots(r0.Touch(p), p, pairs, all);
      ListedSnoc(custom);
    }
  }

  /** Slot k of row p, or null when the row does not exist. */
  function SlotIn(t: Table, p: string, k: SlotKey): (r: Option<Method>) {
    if p in t.rows then t.rows[p].At(k) else None
  }

  /**
   * Reference definition of a slot after the whole custom merge: the entries
   * for p, in order, each overwrite it with their last resolvable method for k,
   * starting from the value `before` the merge.
   */
  function MergedSlot(custom: CustomMap, p: string, k: SlotKey, all: seq<Method>, before: Option<Method>): (r: Option<Method>) {
    if custom == [] then before
    else
      var prev := MergedSlot(custom[..|custom| - 1], p, k, all, before);
      var (q, pairs) := custom[|custom| - 1];
      if q == p then LastResolved(pairs, k, all).OrElse(prev) else prev
  }

  /**
   * The custom merge overrides slots entry by entry: every slot of every row
   * ends as the last existing method named for it across all entries of that
   * property, and otherwise keeps what discovery put there.
   */
  lemma {:induction false} MergeCustomSlots(t: Table, custom: CustomMap, all: seq<Method>)
    requires t.Valid()
    ensures forall p, k :: SlotIn(MergeCustom(t, custom, all), p, k) == MergedSlot(custom, p, k, all, SlotIn(t, p, k))
  {
    if custom != [] {
      var init := custom[..|custom| - 1];
      MergeCustomSlots(t, init, all);
      var r0 := MergeCustom(t, init, all);
      var (p, pairs) := custom[|custom| - 1];
      var r1 := r0.Touch(p);
      MergePairsSlots(r1, p, pairs, all);
      forall q, k ensures SlotIn(MergeCustom(t, custom, all), q, k) == MergedSlot(custom, q, k, all, SlotIn(t, q, k)) {
        assert SlotIn(r1, q, k) == SlotIn(r0, q, k);
      }
    }
  }

  // ---------------------------------------------------------------------------
  // extractProperties (src/PropifierTrait.php:208-260)
  // ---------------------------------------------------------------------------

  /**
   * What an extracted slot holds: a method name invoked directly, or the
   * configuration (getter, setter, itr) of an ArrayProperty proxy.
   */
  datatype Slot =
    | Call(name: string)
    | Proxy(getter: Option<Method>, setter: Option<Method>, itr: Option<Method>)

  /** ['get' => ?, 'set' => ?] of an extracted property; the value-level view of an entry. */
  datatype Shape = Shape(getter: Option<Slot>, setter: Option<Slot>)

  /**
   * The body of the foreach in extractProperties for one row: Success(None)
   * adds nothing, Success(Some(s)) adds s, Failure is the exception thrown.
   */
  function ClassifyEntry(row: Slots): (r: Result<Option<Shape>, PropertyError>) {
    match (row.getter, row.setter)
    case (Some(g), Some(s)) =>
      if g.arity == 0 && s.arity == 1 then Success(Some(Shape(Some(Call(g.name)), Some(Call(s.name)))))
      else if g.arity == 1 && s.arity == 2 then
        var proxy := Proxy(row.getter, row.setter, row.itr);
        Success(Some(Shape(Some(proxy), Some(proxy))))
      else Failure(MismatchedProperties(row.getter, row.setter))
    case (Some(g), None) =>
      if g.arity == 0 then Success(Some(Shape(Some(Call(g.name)), None)))
      else if g.arity == 1 then Success(Some(Shape(Some(Proxy(row.getter, None, row.itr)), None)))
      else Failure(InvalidProperty(g))
    case (None, Some(s)) =>
      if s.arity == 1 then Success(Some(Shape(None, Some(Call(s.name)))))
      else if s.arity == 2 then Success(Some(Shape(Some(Proxy(None, row.setter, row.itr)), None)))
      else Failure(InvalidProperty(s))
    case (None, None) => Success(None)
  }

  /** The accepted arity shapes: 0/1 (plain) or 1/2 (indexed) for a pair, and the same per side alone. */
  predicate AritiesAccepted(row: Slots) {
    (row.getter.Some? ==> row.getter.value.arity <= 1) &&
    (row.setter.Some? ==> 1 <= row.setter.value.arity <= 2) &&
    (row.getter.Some? && row.setter.Some? ==> row.getter.value.arity + 1 == row.setter.value.arity)
  }

  /** The failing rows and the exception each raises. */
  lemma ClassifyEntryErrors(row: Slots)
    ensures ClassifyEntry(row).Failure? <==> !AritiesAccepted(row)
    ensures ClassifyEntry(row).Failure? && row.getter.Some? && row.setter.Some? ==>
              ClassifyEntry(row).error == MismatchedProperties(row.getter, row.setter)
    ensures ClassifyEntry(row).Failure? && row.getter.Some? && row.setter.None? ==>
              ClassifyEntry(row).error == InvalidProperty(row.getter.value)
    ensures ClassifyEntry(row).Failure? && row.getter.None? ==>
              row.setter.Some? && ClassifyEntry(row).error == InvalidProperty(row.setter.value)
  {
  }

  /** A mismatch raised by extraction always reports the getter's name. */
  lemma MismatchReportsGetter(row: Slots)
    requires ClassifyEntry(row).Failure? && ClassifyEntry(row).error.MismatchedProperties?
    ensures row.getter.Some? && ClassifyEntry(row).error.ReportedName() == row.getter.value.name
  {
  }

  /**
   * What an accepted row becomes: no entry exactly when it has neither getter
   * nor setter (an itr alone is dropped); a get slot exactly when there is
   * a getter or a two-argument setter; plain slots name the methods; proxies
   * carry the row's methods and itr, and a getter/setter pair shares one.
   * Cell by cell: a 0-argument getter and a 1-argument setter are called by
   * name; a 1-argument getter or a 2-argument setter makes a proxy stored in
   * the get slot, and in the set slot too when both are present.
   */
  lemma ClassifyEntryShapes(row: Slots)
    requires ClassifyEntry(row).Success?
    ensures ClassifyEntry(row).value.None? <==> row.getter.None? && row.setter.None?
    ensures ClassifyEntry(row).value.Some? ==>
              var shape := ClassifyEntry(row).value.value;
              && (shape.getter.Some? <==> row.getter.Some? || row.setter.value.arity == 2)
              && (shape.setter.Some? <==> row.setter.Some? && (row.getter.Some? || row.setter.value.arity == 1))
              && (shape.getter.Some? && shape.getter.value.Call? ==>
                    row.getter.Some? && shape.getter.value.name == row.getter.value.name && row.getter.value.arity == 0)
              && (shape.setter.Some? && shape.setter.value.Call? ==>
                    row.setter.Some? && shape.setter.value.name == row.setter.value.name && row.setter.value.arity == 1)
              && (shape.getter.Some? && shape.getter.value.Proxy? ==>
                    shape.getter.value == Proxy(row.getter, row.setter, row.itr))
              && (shape.setter.Some? && shape.setter.value.Proxy? ==> shape.setter == shape.getter)
    ensures row.getter.Some? && row.getter.value.arity == 0 ==>
              ClassifyEntry(row).value.Some? && ClassifyEntry(row).value.value.getter == Some(Call(row.getter.value.name))
    ensures row.setter.Some? && row.setter.value.arity == 1 ==>
              ClassifyEntry(row).value.Some? && ClassifyEntry(row).value.value.setter == Some(Call(row.setter.value.name))
    ensures (row.getter.Some? && row.getter.value.arity == 1) || (row.setter.Some? && row.setter.value.arity == 2) ==>
              var proxy := Proxy(row.getter, row.setter, row.itr);
              && ClassifyEntry(row).value.Some?
              && ClassifyEntry(row).value.value.getter == Some(proxy)
              && ClassifyEntry(row).value.value.setter == (if row.getter.Some? && row.setter.Some? then Some(proxy) else None)
  {
  }

  /** The fold of extractProperties over the first n keys, in insertion order. */
  function ExtractPrefix(t: Table, n: nat): (r: Result<map<string, Shape>, PropertyError>)
    requires t.Valid() && n <= |t.order|
  {
    if n == 0 then Success(map[])
    else
      match ExtractPrefix(t, n - 1)
      case Failure(e) => Failure(e)
      case Success(m) =>
        match ClassifyEntry(t.rows[t.order[n - 1]])
        case Failure(e) => Failure(e)
        case Success(None) => Success(m)
        case Success(Some(shape)) => Success(m[t.order[n - 1] := shape])
  }

  /** extractProperties throws at the first bad row: once a prefix fails, so does the whole fold. */
  lemma {:induction false} ExtractFailureSticks(t: Table, n: nat)
    requires t.Valid() && n <= |t.order|
    requires ExtractPrefix(t, n).Failure?
    ensures ExtractPrefix(t, |t.order|) == ExtractPrefix(t, n)
    decreases |t.order| - n
  {
    if n < |t.order| {
      ExtractFailureSticks(t, n + 1);
    }
  }

  function Extract(t: Table): (r: Result<map<string, Shape>, PropertyError>)
    requires t.Valid()
  {
    ExtractPrefix(t, |t.order|)
  }

  lemma {:induction false} ExtractPrefixSucceeds(t: Table, n: nat)
    requires t.Valid() && n <= |t.order|
    ensures ExtractPrefix(t, n).Success? <==> forall i :: 0 <= i < n ==> ClassifyEntry(t.rows[t.order[i]]).Success?
  {
    if n > 0 {
      ExtractPrefixSucceeds(t, n - 1);
    }
  }

  lemma {:induction false} ExtractPrefixKeys(t: Table, n: nat)
    requires t.Valid() && n <= |t.order|
    ensures ExtractPrefix(t, n).Success? ==>
              forall p :: p in ExtractPrefix(t, n).value <==>
                exists i :: 0 <= i < n && t.order[i] == p && ClassifyEntry(t.rows[p]).Success? && ClassifyEntry(t.rows[p]).value.Some?
  {
    if n > 0 {
      ExtractPrefixKeys(t, n - 1);
    }
  }

  lemma {:induction false} ExtractPrefixValues(t: Table, n: nat)
    requires t.Valid() && n <= |t.order|
    ensures ExtractPrefix(t, n).Success? ==>
              forall p :: p in ExtractPrefix(t, n).value ==>
                p in t.rows && ClassifyEntry(t.rows[p]) == Success(Some(ExtractPrefix(t, n).value[p]))
  {
    if n > 0 {
      ExtractPrefixValues(t, n - 1);
    }
  }

  lemma {:induction false} ExtractPrefixFirstFailure(t: Table, n: nat)
    requires t.Valid() && n <= |t.order|
    ensures ExtractPrefix(t, n).Failure? ==>
              exists i :: 0 <= i < n && ClassifyEntry(t.rows[t.order[i]]) == Failure(ExtractPrefix(t, n).error) &&
                forall j :: 0 <= j < i ==> ClassifyEntry(t.rows[t.order[j]]).Success?
  {
    if n > 0 {
      ExtractPrefixFirstFailure(t, n - 1);
      ExtractPrefixSucceeds(t, n - 1);
    }
  }

  /**
   * extractProperties, characterised: it succeeds exactly when every row's
   * arities are accepted; it then holds an entry for exactly the rows with a
   * getter or a setter, each as ClassifyEntry shapes it; otherwise it throws the
   * exception of the first bad row in insertion order.
   */
  lemma ExtractCharacterised(t: Table)
    requires t.Valid()
    ensures Extract(t).Success? <==> forall p :: p in t.rows ==> AritiesAccepted(t.rows[p])
    ensures Extract(t).Success? ==>
              forall p :: p in Extract(t).value <==>
                p in t.rows && (t.rows[p].getter.Some? || t.rows[p].setter.Some?)
    ensures Extract(t).Success? ==>
              forall p :: p in Extract(t).value ==> Success(Some(Extract(t).value[p])) == ClassifyEntry(t.rows[p])
    ensures Extract(t).Failure? ==>
              exists i :: 0 <= i < |t.order| && ClassifyEntry(t.rows[t.order[i]]) == Failure(Extract(t).error) &&
                forall j :: 0 <= j < i ==> AritiesAccepted(t.rows[t.order[j]])
  {
    var n := |t.order|;
    forall p | p in t.rows ensures ClassifyEntry(t.rows[p]).Failure? <==> !AritiesAccepted(t.rows[p]) {
      ClassifyEntryErrors(t.rows[p]);
    }
    if Extract(t).Success? {
      ExtractPrefixSucceeds(t, n);
      forall p | p in t.rows ensures AritiesAccepted(t.rows[p]) {
        var i :| 0 <= i < n && t.order[i] == p;
      }
      ExtractPrefixKeys(t, n);
      ExtractPrefixValues(t, n);
      forall p | p in t.rows
        ensures ClassifyEntry(t.rows[p]).value.Some? <==> t.rows[p].getter.Some? || t.rows[p].setter.Some?
      {
        ClassifyEntryShapes(t.rows[p]);
      }
    } else {
      ExtractPrefixSucceeds(t, n);
      ExtractPrefixFirstFailure(t, n);
      var i :| 0 <= i < n && ClassifyEntry(t.rows[t.order[i]]) == Failure(Extract(t).error) &&
                forall j :: 0 <= j < i ==> ClassifyEntry(t.rows[t.order[j]]).Success?;
      assert forall j :: 0 <= j < i ==> AritiesAccepted(t.rows[t.order[j]]);
      assert !AritiesAccepted(t.rows[t.order[i]]);
    }
  }

  // ---------------------------------------------------------------------------
  // The whole build and the per-class cache (src/PropifierTrait.php:130-196)
  // ---------------------------------------------------------------------------

  /** What buildMethodMap computes for a class before storing it. */
  function Build(d: ClassDecl): (r: Result<map<string, Shape>, PropertyError>) {
    Extract(MergeCustom(Discover(Discoverable(d.methods)), d.propertyMap, d.methods))
  }

  /** self::$methodMap, seen through the shapes of its entries. */
  type Cache = map<ClassId, map<string, Shape>>

  /**
   * One call of buildMethodMap on the cache: a stored class is not rescanned;
   * otherwise the result is stored, or the exception is thrown and nothing is.
   */
  function CacheBuild(cache: Cache, d: ClassDecl): (r: (Cache, Option<PropertyError>)) {
    if d.id in cache then (cache, None)
    else
      match Build(d)
      case Success(m) => (cache[d.id := m], None)
      case Failure(e) => (cache, Some(e))
  }

  /**
   * Caching: a second build changes nothing and throws nothing; a failed build
   * stores nothing, so the next one fails the same way; an empty result is still
   * stored; other classes' entries are never touched.
   */
  lemma CacheBuildProperties(cache: Cache, d: ClassDecl)
    ensures CacheBuild(cache, d).1.None? ==> CacheBuild(CacheBuild(cache, d).0, d) == CacheBuild(cache, d)
    ensures CacheBuild(cache, d).1.Some? ==>
              CacheBuild(cache, d).0 == cache && CacheBuild(CacheBuild(cache, d).0, d) == CacheBuild(cache, d)
    ensures d.id !in cache && Build(d) == Success(map[]) ==> CacheBuild(cache, d).0 == cache[d.id := map[]]
    ensures forall c :: c != d.id ==> (c in CacheBuild(cache, d).0 <==> c in cache)
    ensures forall c :: c != d.id && c in cache ==> CacheBuild(cache, d).0[c] == cache[c]
    ensures CacheBuild(cache, d).1.None? ==> d.id in CacheBuild(cache, d).0
  {
  }
}
