/**
 * PropifierTrait (src/PropifierTrait.php): the loops of buildMethodMap and
 * extractProperties, the class-keyed static cache and the magic methods
 * __get, __set, __isset and __unset. Each loop is proved equal to its
 * specification in module MethodMap.
 */
module Propifier {
  import opened Wrappers
  import opened SnakeCase
  import opened Methods
  import opened Errors
  import opened MethodMap
  import opened Host
  import opened ArrayProperties

  /** An extracted slot: a method name, or the shared ArrayProperty proxy. */
  datatype Accessor = ByName(callee: string) | Indexed(proxy: ArrayProperty)

  /** ['get' => ?, 'set' => ?] as extractProperties stores it. */
  datatype Entry = Entry(getter: Option<Accessor>, setter: Option<Accessor>)

  /** What __get hands back: the result of calling a getter, or the bound proxy itself. */
  datatype Read = Invoke(call: Invocation) | Bound(proxy: ArrayProperty)

  function AccessorView(a: Accessor): (r: Slot) {
    match a
    case ByName(n) => Call(n)
    case Indexed(p) => Proxy(p.getter, p.setter, p.itr)
  }

  function SlotView(a: Option<Accessor>): (r: Option<Slot>) {
    match a
    case None => None
    case Some(x) => Some(AccessorView(x))
  }

  function EntryView(e: Entry): (r: Shape) {
    Shape(SlotView(e.getter), SlotView(e.setter))
  }

  function EntriesView(m: map<string, Entry>): (r: map<string, Shape>) {
    map p | p in m :: EntryView(m[p])
  }

  lemma EntriesViewUpdate(m: map<string, Entry>, p: string, e: Entry)
    ensures EntriesView(m[p := e]) == EntriesView(m)[p := EntryView(e)]
  {
  }

  function ProxiesOf(e: Entry): (r: set<ArrayProperty>) {
    (if e.getter.Some? && e.getter.value.Indexed? then {e.getter.value.proxy} else {}) +
    (if e.setter.Some? && e.setter.value.Indexed? then {e.setter.value.proxy} else {})
  }

  /** An indexed getter/setter pair is one proxy object in both slots. */
  predicate SharesProxy(e: Entry) {
    e.getter.Some? && e.getter.value.Indexed? && e.setter.Some? && e.setter.value.Indexed? ==>
      e.getter == e.setter
  }

  /** Every proxy of an entry reports the name its constructor derives from its methods. */
  predicate ProxiesNamed(e: Entry) {
    forall a :: a in ProxiesOf(e) ==> a.name == LastName(a.getter, a.setter, a.itr)
  }

  /** substr($s, 0, n) */
  function Substr(s: string, n: nat): (r: string)
    ensures r <= s && |r| == if |s| < n then |s| else n
  {
    if |s| < n then s else s[..n]
  }

  lemma SubstrMatches(s: string, p: string)
    ensures Substr(s, |p|) == p <==> p <= s
  {
  }

  /** The slot the second if-chain of the first foreach writes for a given prefix. */
  function PrefixSlot(prefix: string): (r: Option<SlotKey>) {
    if prefix == "get" || prefix == "is" || prefix == "has" then Some(GetKey)
    else if prefix == "set" then Some(SetKey)
    else if prefix == "itr" then Some(ItrKey)
    else if prefix == "unset" then Some(UnsetKey)
    else None
  }

  /**
   * The first if-chain of the foreach: the prefix and the property name of a
   * reflected method, or skip for a method that names no property.
   */
  method SplitName(name: string) returns (prefix: string, propertyName: string, skip: bool)
    ensures skip <==> ClassifyName(name).Ignored?
    ensures !skip ==> ClassifyName(name) == Named(propertyName, PrefixSlot(prefix))
  {
    SubstrMatches(name, "get");
    SubstrMatches(name, "set");
    SubstrMatches(name, "itr");
    SubstrMatches(name, "is");
    SubstrMatches(name, "has");
    SubstrMatches(name, "uns");
    prefix := Substr(name, 3);
    propertyName := "";
    skip := false;
    if prefix == "get" || prefix == "set" || prefix == "itr" {
      propertyName := CamelToSnake(name[3..]);
    } else if Substr(name, 2) == "is" || Substr(name, 3) == "has" {
      prefix := Substr(name, 2);
      propertyName := CamelToSnake(name[|prefix|..]);
    } else if prefix == "uns" {
      prefix := "unset";
      propertyName := CamelToSnake(name[3..]);
    } else {
      skip := true;
    }
  }

  /**
   * The first foreach of buildMethodMap over the reflected methods, building
   * the working array row by row.
   */
  method CollectMethods(methods: seq<Method>) returns (methodMap: Table)
    ensures methodMap == Discover(methods)
  {
    methodMap := EmptyTable;
    var i := 0;
    while i < |methods|
      invariant 0 <= i <= |methods|
      invariant methodMap == Discover(methods[..i])
    {
      var m := methods[i];
      var prefix, propertyName, skip := SplitName(m.name);
      if !skip {
        methodMap := methodMap.Touch(propertyName);
        if prefix == "get" || prefix == "is" || prefix == "has" {
          methodMap := methodMap.Fill(propertyName, GetKey, m);
        } else if prefix == "set" {
          methodMap := methodMap.Fill(propertyName, SetKey, m);
        } else if prefix == "itr" {
          methodMap := methodMap.Fill(propertyName, ItrKey, m);
        } else if prefix == "unset" {
          methodMap := methodMap.Fill(propertyName, UnsetKey, m);
        }
      }
      assert methods[..i + 1] == methods[..i] + [m];
      i := i + 1;
    }
    assert methods[..i] == methods;
  }

  /**
   * The inner foreach of the custom mapping: each (slot key => method name)
   * pair of row p fills its slot when the named method exists.
   */
  method FillCustomSlots(t: Table, p: string, methods: seq<(string, string)>, all: seq<Method>) returns (merged: Table)
    requires t.Valid() && p in t.rows
    ensures merged == MergePairs(t, p, methods, all)
  {
    merged := t;
    var j := 0;
    while j < |methods|
      invariant 0 <= j <= |methods|
      invariant merged == MergePairs(t, p, methods[..j], all)
    {
      var (key, methodName) := methods[j];
      MergePairsStep(t, p, methods, j, all);
      var found := FindMethod(all, methodName);
      if found.Some? {
        var slot := KeyOf(key);
        if slot.Some? {
          merged := merged.Fill(p, slot.value, found.value);
        }
      }
      j := j + 1;
    }
    assert methods[..j] == methods;
  }

  /**
   * The custom-mapping foreach of buildMethodMap: listed names are used as
   * written, and a slot is overwritten only when the named method exists.
   */
  method MergeCustomMap(methodMap: Table, propertyMap: CustomMap, all: seq<Method>) returns (merged: Table)
    requires methodMap.Valid()
    ensures merged == MergeCustom(methodMap, propertyMap, all)
  {
    merged := methodMap;
    var i := 0;
    while i < |propertyMap|
      invariant 0 <= i <= |propertyMap|
      invariant merged == MergeCustom(methodMap, propertyMap[..i], all)
    {
      var (propName, methods) := propertyMap[i];
      MergeCustomStep(methodMap, propertyMap, i, all);
      merged := merged.Touch(propName);
      merged := FillCustomSlots(merged, propName, methods, all);
      i := i + 1;
    }
    assert propertyMap[..i] == propertyMap;
  }

  /**
   * extractProperties: walks the rows in insertion order, creates one fresh
   * ArrayProperty per indexed property, and throws at the first bad row.
   */
  method ExtractProperties(methodMap: Table) returns (r: Result<map<string, Entry>, PropertyError>)
    requires methodMap.Valid()
    ensures r.Success? <==> Extract(methodMap).Success?
    ensures r.Success? ==> EntriesView(r.value) == Extract(methodMap).value
    ensures r.Failure? ==> r.error == Extract(methodMap).error
    ensures r.Success? ==> forall p :: p in r.value ==>
              SharesProxy(r.value[p]) && ProxiesNamed(r.value[p]) && fresh(ProxiesOf(r.value[p]))
    ensures r.Success? ==> forall p, q :: p in r.value && q in r.value && p != q ==>
              ProxiesOf(r.value[p]) !! ProxiesOf(r.value[q])
  {
    var extracted: map<string, Entry> := map[];
    var i := 0;
    while i < |methodMap.order|
      invariant 0 <= i <= |methodMap.order|
      invariant ExtractPrefix(methodMap, i) == Success(EntriesView(extracted))
      invariant forall p :: p in extracted ==>
                  SharesProxy(extracted[p]) && ProxiesNamed(extracted[p]) && fresh(ProxiesOf(extracted[p]))
      invariant forall p, q :: p in extracted && q in extracted && p != q ==>
                  ProxiesOf(extracted[p]) !! ProxiesOf(extracted[q])
    {
      var name := methodMap.order[i];
      var row := ExtractRow(methodMap.rows[name]);
      match row {
        case Failure(e) =>
          ExtractFailureSticks(methodMap, i + 1);
          return Failure(e);
        case Success(None) =>
          assert ExtractPrefix(methodMap, i + 1) == Success(EntriesView(extracted));
        case Success(Some(entry)) =>
          assert ExtractPrefix(methodMap, i + 1) == Success(EntriesView(extracted)[name := EntryView(entry)]);
          EntriesViewUpdate(extracted, name, entry);
          extracted := extracted[name := entry];
      }
      i := i + 1;
    }
    return Success(extracted);
  }

  /**
   * One iteration of extractProperties: the arity checks of one row, with a
   * fresh ArrayProperty for an indexed property.
   */
  method ExtractRow(methods: Slots) returns (r: Result<Option<Entry>, PropertyError>)
    ensures match r
            case Failure(e) => ClassifyEntry(methods) == Failure(e)
            case Success(None) => ClassifyEntry(methods) == Success(None)
            case Success(Some(entry)) =>
              ClassifyEntry(methods) == Success(Some(EntryView(entry))) &&
              SharesProxy(entry) && ProxiesNamed(entry) && fresh(ProxiesOf(entry))
  {
    var hasGet := methods.getter.Some?;
    var hasSet := methods.setter.Some?;
    if hasGet && hasSet {
      var getParams := methods.getter.value.arity;
      var setParams := methods.setter.value.arity;
      if getParams == 0 && setParams == 1 {
        return Success(Some(Entry(Some(ByName(methods.getter.value.name)), Some(ByName(methods.setter.value.name)))));
      } else if getParams == 1 && setParams == 2 {
        var arrayProperty := new ArrayProperty(methods.getter, methods.setter, methods.itr);
        return Success(Some(Entry(Some(Indexed(arrayProperty)), Some(Indexed(arrayProperty)))));
      } else {
        return Failure(MismatchedProperties(methods.getter, methods.setter));
      }
    } else if hasGet {
      var getParams := methods.getter.value.arity;
      if getParams == 0 {
        return Success(Some(Entry(Some(ByName(methods.getter.value.name)), None)));
      } else if getParams == 1 {
        var arrayProperty := new ArrayProperty(methods.getter, None, methods.itr);
        return Success(Some(Entry(Some(Indexed(arrayProperty)), None)));
      } else {
        return Failure(InvalidProperty(methods.getter.value));
      }
    } else if hasSet {
      var setParams := methods.setter.value.arity;
      if setParams == 1 {
        return Success(Some(Entry(None, Some(ByName(methods.setter.value.name)))));
      } else if setParams == 2 {
        var arrayProperty := new ArrayProperty(None, methods.setter, methods.itr);
        return Success(Some(Entry(Some(Indexed(arrayProperty)), None)));
      } else {
        return Failure(InvalidProperty(methods.setter.value));
      }
    }
    return Success(None);
  }

  /** Every proxy stored anywhere in the cache. */
  ghost function CachedProxies(maps: map<ClassId, map<string, Entry>>): (r: set<ArrayProperty>) {
    set c, p, a | c in maps && p in maps[c] && a in ProxiesOf(maps[c][p]) :: a
  }

  function CacheView(maps: map<ClassId, map<string, Entry>>): (r: Cache) {
    map c | c in maps :: EntriesView(maps[c])
  }

  /** Storing the entries of a class not yet cached. */
  lemma StoreClass(maps: map<ClassId, map<string, Entry>>, cls: ClassId, m: map<string, Entry>)
    requires cls !in maps
    ensures CacheView(maps[cls := m]) == CacheView(maps)[cls := EntriesView(m)]
    ensures forall a :: a in CachedProxies(maps[cls := m]) ==>
              a in CachedProxies(maps) || exists p :: p in m && a in ProxiesOf(m[p])
  {
    forall a | a in CachedProxies(maps[cls := m])
      ensures a in CachedProxies(maps) || exists p :: p in m && a in ProxiesOf(m[p])
    {
      var c, p :| c in maps[cls := m] && p in maps[cls := m][c] && a in ProxiesOf(maps[cls := m][c][p]);
      if c != cls {
        assert c in maps && p in maps[c] && a in ProxiesOf(maps[c][p]);
      }
    }
  }

  /**
   * What the cache keeps about its proxies: a getter/setter pair shares one,
   * each carries its constructor's name, and no two properties share one.
   */
  ghost predicate CacheValid(maps: map<ClassId, map<string, Entry>>) {
    (forall c, p :: c in maps && p in maps[c] ==> SharesProxy(maps[c][p]) && ProxiesNamed(maps[c][p])) &&
    (forall c, p, c', p' :: c in maps && p in maps[c] && c' in maps && p' in maps[c'] && (c, p) != (c', p') ==>
       ProxiesOf(maps[c][p]) !! ProxiesOf(maps[c'][p']))
  }

  /** Storing a new class whose proxies are its own keeps the cache valid. */
  lemma StoreKeepsValid(maps: map<ClassId, map<string, Entry>>, cls: ClassId, m: map<string, Entry>)
    requires CacheValid(maps) && cls !in maps
    requires forall p :: p in m ==> SharesProxy(m[p]) && ProxiesNamed(m[p])
    requires forall p, q :: p in m && q in m && p != q ==> ProxiesOf(m[p]) !! ProxiesOf(m[q])
    requires forall p :: p in m ==> ProxiesOf(m[p]) !! CachedProxies(maps)
    ensures CacheValid(maps[cls := m])
  {
    var maps' := maps[cls := m];
    forall c, p, c', p' | c in maps' && p in maps'[c] && c' in maps' && p' in maps'[c'] && (c, p) != (c', p')
      ensures ProxiesOf(maps'[c][p]) !! ProxiesOf(maps'[c'][p'])
    {
      if c == cls && c' != cls {
        forall a | a in ProxiesOf(maps'[c'][p']) ensures a in CachedProxies(maps) {
          assert c' in maps && p' in maps[c'];
        }
      } else if c != cls && c' == cls {
        forall a | a in ProxiesOf(maps'[c][p]) ensures a in CachedProxies(maps) {
          assert c in maps && p in maps[c];
        }
      }
    }
  }

  /** The static self::$methodMap shared by all instances, and the magic methods that read it. */
  class Registry {
    var maps: map<ClassId, map<string, Entry>>

    ghost predicate Valid()
      reads this
    {
      CacheValid(maps)
    }

    /** The cache seen through the shapes of its entries. */
    function View(): Cache
      reads this
    {
      CacheView(maps)
    }

    ghost function Proxies(): set<ArrayProperty>
      reads this
    {
      CachedProxies(maps)
    }

    constructor ()
      ensures Valid() && maps == map[]
    {
      maps := map[];
    }

    /**
     * buildMethodMap: a stored class is returned at once; otherwise the class
     * is scanned, merged and extracted, and the result stored, unless
     * extraction throws, in which case nothing is stored.
     */
    method BuildMethodMap(obj: Instance) returns (err: Option<PropertyError>)
      requires Valid()
      modifies this
      ensures Valid()
      ensures (View(), err) == CacheBuild(old(View()), obj.decl)
      ensures obj.decl.id in old(maps) ==> maps == old(maps)
      ensures forall c :: c in old(maps) ==> c in maps && maps[c] == old(maps)[c]
      ensures err.None? ==> obj.decl.id in maps
      ensures forall a :: a in Proxies() ==> a in old(Proxies()) || fresh(a)
    {
      var cls := obj.decl.id;
      if cls in maps {
        return None;
      }
      ghost var cached := CachedProxies(maps);
      var methodMap := CollectMethods(Discoverable(obj.decl.methods));
      methodMap := MergeCustomMap(methodMap, obj.decl.propertyMap, obj.decl.methods);
      var extracted := ExtractProperties(methodMap);
      if extracted.Failure? {
        return Some(extracted.error);
      }
      StoreClass(maps, cls, extracted.value);
      forall p | p in extracted.value ensures ProxiesOf(extracted.value[p]) !! cached {
      }
      StoreKeepsValid(maps, cls, extracted.value);
      maps := maps[cls := extracted.value];
      return None;
    }

    /**
     * __get: NoSuchProperty unless the get slot is filled; a method name is
     * called without arguments; a proxy is bound to obj and returned itself.
     */
    method Get(obj: Instance, property: string) returns (r: Result<Read, PropertyError>)
      requires Valid()
      modifies this, Proxies()
      ensures Valid()
      ensures obj.decl.id in old(maps) ==> maps == old(maps)
      ensures forall c :: c in old(maps) ==> c in maps && maps[c] == old(maps)[c]
      ensures forall a :: a in Proxies() ==> a in old(Proxies()) || fresh(a)
      ensures View() == CacheBuild(old(View()), obj.decl).0
      ensures CacheBuild(old(View()), obj.decl).1.Some? ==> r == Failure(CacheBuild(old(View()), obj.decl).1.value)
      ensures CacheBuild(old(View()), obj.decl).1.None? ==>
                obj.decl.id in maps &&
                var entries := maps[obj.decl.id];
                && (property !in entries || entries[property].getter.None? ==> r == Failure(NoSuchProperty(property)))
                && (property in entries && entries[property].getter.Some? ==>
                      match entries[property].getter.value
                      case ByName(n) => r == Success(Invoke(Invocation(obj, n, [])))
                      case Indexed(a) => r == Success(Bound(a)) && a.obj == obj)
      ensures forall a :: a in old(Proxies()) && !(r.Success? && r.value == Bound(a)) ==> a.obj == old(a.obj)
    {
      var err := BuildMethodMap(obj);
      if err.Some? {
        return Failure(err.value);
      }
      var cls := obj.decl.id;
      if !(property in maps[cls] && maps[cls][property].getter.Some?) {
        return Failure(NoSuchProperty(property));
      }
      var accessor := maps[cls][property].getter.value;
      match accessor
      case Indexed(a) =>
        assert a in ProxiesOf(maps[cls][property]);
        assert a in Proxies();
        a.This(obj);
        return Success(Bound(a));
      case ByName(n) =>
        return Success(Invoke(Invocation(obj, n, [])));
    }

    /**
     * __set: NoSuchProperty unless the set slot is filled; a method name is
     * called with the value; a proxy there cannot be called as a method.
     */
    method Set(obj: Instance, property: string, value: Value) returns (r: Result<Invocation, PropertyError>)
      requires Valid()
      modifies this
      ensures Valid()
      ensures obj.decl.id in old(maps) ==> maps == old(maps)
      ensures forall c :: c in old(maps) ==> c in maps && maps[c] == old(maps)[c]
      ensures forall a :: a in Proxies() ==> a in old(Proxies()) || fresh(a)
      ensures View() == CacheBuild(old(View()), obj.decl).0
      ensures CacheBuild(old(View()), obj.decl).1.Some? ==> r == Failure(CacheBuild(old(View()), obj.decl).1.value)
      ensures CacheBuild(old(View()), obj.decl).1.None? ==>
                obj.decl.id in maps &&
                var entries := maps[obj.decl.id];
                && (property !in entries || entries[property].setter.None? ==> r == Failure(NoSuchProperty(property)))
                && (property in entries && entries[property].setter.Some? ==>
                      match entries[property].setter.value
                      case ByName(n) => r == Success(Invocation(obj, n, [value]))
                      case Indexed(_) => r == Failure(NotCallable(property)))
    {
      var err := BuildMethodMap(obj);
      if err.Some? {
        return Failure(err.value);
      }
      var cls := obj.decl.id;
      if !(property in maps[cls] && maps[cls][property].setter.Some?) {
        return Failure(NoSuchProperty(property));
      }
      var accessor := maps[cls][property].setter.value;
      match accessor
      case Indexed(_) =>
        return Failure(NotCallable(property));
      case ByName(n) =>
        return Success(Invocation(obj, n, [value]));
    }

    /** __isset: whether the get slot of the property is filled. */
    method Isset(obj: Instance, property: string) returns (r: Result<bool, PropertyError>)
      requires Valid()
      modifies this
      ensures Valid()
      ensures obj.decl.id in old(maps) ==> maps == old(maps)
      ensures forall c :: c in old(maps) ==> c in maps && maps[c] == old(maps)[c]
      ensures forall a :: a in Proxies() ==> a in old(Proxies()) || fresh(a)
      ensures View() == CacheBuild(old(View()), obj.decl).0
      ensures CacheBuild(old(View()), obj.decl).1.Some? ==> r == Failure(CacheBuild(old(View()), obj.decl).1.value)
      ensures CacheBuild(old(View()), obj.decl).1.None? ==>
                obj.decl.id in View() &&
                r == Success(property in View()[obj.decl.id] && View()[obj.decl.id][property].getter.Some?)
    {
      var err := BuildMethodMap(obj);
      if err.Some? {
        return Failure(err.value);
      }
      var cls := obj.decl.id;
      return Success(property in maps[cls] && maps[cls][property].getter.Some?);
    }

    /**
     * __unset: looks for an 'unset' slot, which extracted entries never have,
     * so it fails whenever the build succeeds.
     */
    method Unset(obj: Instance, property: string) returns (r: Result<Invocation, PropertyError>)
      requires Valid()
      modifies this
      ensures Valid()
      ensures obj.decl.id in old(maps) ==> maps == old(maps)
      ensures forall c :: c in old(maps) ==> c in maps && maps[c] == old(maps)[c]
      ensures forall a :: a in Proxies() ==> a in old(Proxies()) || fresh(a)
      ensures View() == CacheBuild(old(View()), obj.decl).0
      ensures CacheBuild(old(View()), obj.decl).1.Some? ==> r == Failure(CacheBuild(old(View()), obj.decl).1.value)
      ensures CacheBuild(old(View()), obj.decl).1.None? ==> r == Failure(NoSuchProperty(property))
    {
      var err := BuildMethodMap(obj);
      if err.Some? {
        return Failure(err.value);
      }
      return Failure(NoSuchProperty(property));
    }
  }

  /**
   * Two reads of one property through objects of the same class, as in
   * `$value->array[0] = 100; $value->array[0]`: the second read finds the
   * cache filled by the first, returns the same outcome, and an indexed
   * property yields the one cached proxy, now bound to the later object.
   */
  method ReadTwice(reg: Registry, first: Instance, second: Instance, property: string)
    returns (r1: Result<Read, PropertyError>, r2: Result<Read, PropertyError>)
    requires reg.Valid() && first.decl == second.decl
    modifies reg, reg.Proxies()
    ensures reg.Valid()
    ensures r1.Failure? ==> r2 == r1
    ensures r1.Success? && r1.value.Bound? ==> r2 == r1 && r1.value.proxy.obj == second
    ensures r1.Success? && r1.value.Invoke? ==>
              r2 == Success(Invoke(Invocation(second, r1.value.call.callee, [])))
  {
    r1 := reg.Get(first, property);
    r2 := reg.Get(second, property);
  }
}
