# propaccessor in Dafny

A model of the PHP library *propaccessor*. Its `PropifierTrait` turns a class's
accessor and mutator methods into magic properties. `$obj->something` calls
`getSomething()`, and `$obj->something = $v` calls `setSomething($v)`. For an
indexed property, `$obj->arr[$k]` goes through an `ArrayProperty` proxy that
forwards to `getArr($k)`, `setArr($k, $v)` and `itrArr()`.

## Modules

- `Wrappers`: `Option` and `Result`.
- `SnakeCase`: `camelToSnake` on ASCII strings. It inserts `_` wherever
  `(?<=\w)(?=[A-Z])` matches in the original string, then applies `strtolower`.
- `Methods`: a reflected method, reduced to its name, arity and visibility.
  - A class declaration is its name, its methods in enumeration order and its
    custom `$propertyMap`.
  - `getMethods(IS_PUBLIC | IS_PROTECTED)` drops the private methods.
  - `method_exists` finds a method case-insensitively among all methods,
    private ones included.
- `Errors`: the three exceptions, reduced to their payloads, plus `NotCallable`.
  `NotCallable` is the PHP `Error` raised when `__set` finds a proxy where it
  expects a method name.
- `MethodMap`: the specification as pure functions.
  - The name classification of `buildMethodMap`'s first loop, and the working
    array it builds. The array keeps its insertion order.
  - The merge of the custom `$propertyMap`.
  - The arity rules of `extractProperties`.
  - The per-class cache. A failed build stores nothing; an empty result is
    stored.
- `Host`: user values, class instances, and `Invocation`. An `Invocation` is
  the call the library makes on a user method (receiver, method name,
  arguments). User method bodies are outside the model.
- `ArrayProperties`: class `ArrayProperty`. Its three methods are constants;
  only the bound object `obj` changes.
- `Propifier`: the imperative side.
  - The loops of `buildMethodMap` and `extractProperties`, each proved equal
    to its `MethodMap` function.
  - Class `Registry`: the static `$methodMap` and the four magic methods.
  - `extractProperties` creates one fresh `ArrayProperty` per indexed
    property. A getter/setter pair shares that one object, and every `__get`
    rebinds it.
- `Stubs`: the test-suite stub classes as declarations, with what
  `buildMethodMap` makes of each.

## Where the code and its tests part ways

The model follows the code. Several tests expect behaviour the code does not
have:

- `InvalidSet` declares `setSomething($a, $b)`. The code accepts a
  two-argument setter alone as an indexed property: the entry gets a
  setter-only proxy in its get slot. It raises no `InvalidPropertyException`.
- A name starting with `has` takes the two-letter prefix `ha`.
  - `hasItems` creates the row `s_items`, with no slot filled.
  - The row is dropped at extraction, so `hasItems` is no property.
- `unset*` is matched by `uns`. `unsetProperty` fills the `unset` slot of
  `et_property`. That row has no getter or setter, so it is dropped, and
  `__unset` fails on every property.
- A lone `itr*` method makes no property, so `ArrayItrOnly` has an empty map.
- `__set` on an indexed property finds the proxy in the set slot and cannot
  call it.
- `testInvalidIteration` iterates `Dummy`'s `something`. That is a plain
  property, so `__get` returns what `getSomething()` returns: the unset field,
  null. PHP's `foreach` over null only warns; no `NoSuchPropertyException` is
  raised. In the model that read is an `Invoke`, not a proxy, so
  `GetIterator` is never reached.
- A setter-only indexed property has its proxy in the GET slot. So `__set` on
  it raises `NoSuchProperty`, and `$obj->prop[$k] = $v` works through `__get`.

## Model

| member | source | states |
|---|---|---|
| SnakeCase.CamelToSnake | src/PropifierTrait.php:269-273 | reference definition: `strtolower` of the input with `_` inserted at every position where `(?<=\w)(?=[A-Z])` matches in the original; its properties are the lemmas below |
| SnakeCase.CamelToSnakeNoUpper | src/PropifierTrait.php:269-273 | the derived property name contains no uppercase ASCII letter |
| SnakeCase.LowerAllEach | src/PropifierTrait.php:272 | strtolower keeps the length and lowers each character on its own |
| SnakeCase.CamelToSnakeLayout | src/PropifierTrait.php:269-273 | exactly one `_` is inserted before each uppercase letter that follows a word character; every input character lands, lowered, at its shifted position; nothing else is inserted |
| SnakeCase.SeparateNoBreak | src/PropifierTrait.php:271-272 | where the pattern never matches, preg_replace returns the input unchanged |
| SnakeCase.CamelToSnakeFixesSnake | src/PropifierTrait.php:269-273 | a name without uppercase letters is returned unchanged |
| SnakeCase.CamelToSnakeIdempotent | src/PropifierTrait.php:269-273 | converting twice equals converting once |
| SnakeCase.CamelToSnakeWord | src/PropifierTrait.php:269-273 | a word with only its first letter possibly uppercase is just lowered at the front (`Something` → `something`) |
| SnakeCase.CamelToSnakeConcat | src/PropifierTrait.php:269-273 | conversion distributes over concatenation, with one `_` at the seam exactly when the pattern matches there |
| SnakeCase.CamelToSnakeAppendWord | src/PropifierTrait.php:269-273 | appending a capitalised word after a word character appends `_` and the lowered word |
| SnakeCase.CamelToSnakeMyLongName | src/PropifierTrait.php:269-273 | `myLongName` becomes `my_long_name` |
| Methods.Discoverable | src/PropifierTrait.php:144 | the reflected methods are exactly the non-private ones, no more than declared |
| Methods.FindMethod | src/PropifierTrait.php:187-188 | the method found has the requested name up to ASCII case; no method is found only when none has that name |
| MethodMap.Slots.Put | src/PropifierTrait.php:170-176 | writing one slot sets it and leaves the other three slots as they were |
| MethodMap.Table.Touch | src/PropifierTrait.php:165-167 | an absent row is appended, all-null, at the end of the key order; an existing row is kept as is |
| MethodMap.Table.Fill | src/PropifierTrait.php:169-177 | writing a slot keeps the key order and every other row |
| MethodMap.ClassifyName | src/PropifierTrait.php:149-163 | reference definition of the prefix if-chain: get/set/itr, then is, then has (prefix `ha`, no slot), then uns (the unset slot), else skipped; stated by the next row |
| MethodMap.ClassifyNameInverse | src/PropifierTrait.php:149-163 | a name is skipped iff it has none of the prefixes get/set/itr/is/has/uns; each filled slot comes from its own prefix, with the property the snake-cased rest of the name; only `has` (and not `is`) names yield a row with no slot; property names have no uppercase |
| MethodMap.AddMethod | src/PropifierTrait.php:148-177 | one iteration of the classification loop keeps the working array well formed |
| MethodMap.Discover | src/PropifierTrait.php:146-178 | the classification loop keeps the working array well formed |
| MethodMap.LastFilling | src/PropifierTrait.php:148-177 | reference definition: the method chosen for a slot is among the methods and classifies to that row and slot |
| MethodMap.DiscoverRows | src/PropifierTrait.php:148-177 | a row exists iff some method name maps to that property; each slot holds the LAST method whose name fills it, so later methods overwrite earlier ones |
| MethodMap.DiscoveredAreVisible | src/PropifierTrait.php:144 | no slot filled by discovery holds a private method (the custom merge may still add one, since `method_exists` sees private methods) |
| MethodMap.KeyOf | src/PropifierTrait.php:189 | the slot a custom key writes: `get`, `set`, `itr`, `unset`; any other key writes no slot that extraction reads |
| MethodMap.MergePair | src/PropifierTrait.php:186-191 | one custom pair keeps the key order and the row |
| MethodMap.MergePairs | src/PropifierTrait.php:186-191 | the inner custom loop keeps the key order and the row |
| MethodMap.MergeCustom | src/PropifierTrait.php:181-193 | the custom merge keeps the working array well formed |
| MethodMap.LastResolved | src/PropifierTrait.php:186-191 | reference definition: the method named by the last pair for a slot whose method exists, if any |
| MethodMap.MergePairsSlots | src/PropifierTrait.php:186-191 | each slot ends as the method of the last pair for it whose method exists, else keeps its prior value; other rows and the key set are unchanged |
| MethodMap.MergeCustomRows | src/PropifierTrait.php:181-193 | the merge adds a row for every listed name verbatim (no camelToSnake) and leaves every unlisted row as discovery made it |
| MethodMap.SlotIn | src/PropifierTrait.php:165-166 | a row's slot, or null for an absent row |
| MethodMap.MergedSlot | src/PropifierTrait.php:182-191 | reference definition: the custom entries for a property, in order, each overwrite a slot with their last existing method for it |
| MethodMap.MergeCustomSlots | src/PropifierTrait.php:181-193 | after the whole merge, every slot of every row is the last existing method named for it across all custom entries of that property, and otherwise what discovery left there |
| MethodMap.ClassifyEntry | src/PropifierTrait.php:213-256 | reference definition of one row's arity checks; stated by the next three rows |
| MethodMap.ClassifyEntryErrors | src/PropifierTrait.php:216-256 | a row fails iff its arities are not getter 0/setter 1, getter 1/setter 2, lone getter 0 or 1, or lone setter 1 or 2; a pair fails with MismatchedProperties(get, set), a lone side with InvalidProperty of that side |
| Errors.PropertyError.ReportedName | src/Exception/MismatchedPropertiesException.php:32-38 | reference definition: the name a mismatch reports is the getter's, else the setter's, else empty |
| MethodMap.MismatchReportsGetter | src/Exception/MismatchedPropertiesException.php:30-40 | a mismatch raised by extraction reports the getter's name |
| MethodMap.ClassifyEntryShapes | src/PropifierTrait.php:216-256 | a row gives no entry iff it has neither getter nor setter; it has a get slot iff it has a getter or a 2-argument setter, and a set slot iff it has a setter and either a getter or arity 1; plain slots name methods of arity 0 (get) and 1 (set); a proxy carries the row's get, set and itr methods; a pair shares one proxy; cell by cell, a 0-argument getter and a 1-argument setter are called by name (alone or as a pair), while a 1-argument getter or a 2-argument setter gives a proxy in the get slot, and in the set slot too when both are present |
| MethodMap.ExtractPrefix | src/PropifierTrait.php:212-257 | reference definition: the foreach over the first n rows in insertion order, adding each row's entry and stopping at the first exception; stated by the next five rows |
| MethodMap.ExtractFailureSticks | src/PropifierTrait.php:212-257 | once a row throws, the whole extraction throws that exception |
| MethodMap.ExtractPrefixSucceeds | src/PropifierTrait.php:212-257 | extraction of the first n rows succeeds iff each of them classifies |
| MethodMap.ExtractPrefixKeys | src/PropifierTrait.php:212-257 | the first n rows yield an entry exactly for the rows that classify to an entry |
| MethodMap.ExtractPrefixValues | src/PropifierTrait.php:212-257 | each extracted entry is what its row classifies to |
| MethodMap.ExtractPrefixFirstFailure | src/PropifierTrait.php:212-257 | a failed extraction throws the exception of the first failing row in insertion order |
| MethodMap.Extract | src/PropifierTrait.php:208-260 | reference definition: the fold over all rows in insertion order; stated by the next row |
| MethodMap.ExtractCharacterised | src/PropifierTrait.php:208-260 | extraction succeeds iff every row's arities are accepted; it then has an entry for exactly the rows with a getter or a setter, each as its row classifies; otherwise it throws the first bad row's exception, all earlier rows being accepted |
| MethodMap.Build | src/PropifierTrait.php:138-195 | reference definition: extraction of the custom merge of the discovery over the non-private methods |
| MethodMap.CacheBuild | src/PropifierTrait.php:130-196 | reference definition of one buildMethodMap call on the cache; stated by the next row |
| MethodMap.CacheBuildProperties | src/PropifierTrait.php:130-196 | a second build changes nothing and throws nothing; a failed build stores nothing and fails the same way again; an empty result is stored; other classes are untouched; success leaves the class stored |
| Propifier.Substr | src/PropifierTrait.php:150 | substr(s, 0, n) is the prefix of length min(n, len) |
| Propifier.SubstrMatches | src/PropifierTrait.php:150-158 | comparing substr(s, 0, len p) with p tests whether p is a prefix |
| Propifier.EntriesViewUpdate | src/PropifierTrait.php:222-252 | storing one extracted entry changes its shape only |
| Propifier.PrefixSlot | src/PropifierTrait.php:169-177 | the slot the second if-chain writes for each prefix: get/is/has to get, set, itr, unset; none for the `ha` prefix a has-name actually carries |
| Propifier.SplitName | src/PropifierTrait.php:149-163 | the if-chain skips exactly the names ClassifyName ignores, and otherwise yields its property and slot |
| Propifier.CollectMethods | src/PropifierTrait.php:146-178 | the classification loop computes Discover of the reflected methods |
| Propifier.FillCustomSlots | src/PropifierTrait.php:186-191 | the inner custom loop computes MergePairs |
| Propifier.MergeCustomMap | src/PropifierTrait.php:181-193 | the custom-mapping loop computes MergeCustom |
| Propifier.ExtractRow | src/PropifierTrait.php:213-256 | one row's arity checks give ClassifyEntry's outcome, with a fresh proxy shared by get and set, whose methods are the row's and whose name is that of its last non-null method |
| Propifier.ExtractProperties | src/PropifierTrait.php:208-260 | succeeds iff Extract does, with the same shapes or the same exception; every proxy is fresh, shared within its entry, and named after its last non-null method; different properties hold different proxy objects |
| Propifier.StoreClass | src/PropifierTrait.php:195 | storing a new class adds exactly its entries, and brings no proxies besides its own |
| Propifier.Registry.constructor | src/PropifierTrait.php:28 | the cache starts empty |
| Propifier.Registry.BuildMethodMap | src/PropifierTrait.php:130-196 | the cache and the exception are CacheBuild's; a cached class returns at once; other classes' entries are unchanged; only fresh proxies are added; every cached property keeps its own proxy object, distinct from all others |
| Propifier.StoreKeepsValid | src/PropifierTrait.php:194 | storing a freshly extracted class whose properties hold pairwise distinct, fresh proxies keeps every cached property's proxy its own |
| Propifier.Registry.Get | src/PropifierTrait.php:41-58 | the build's exception, else NoSuchProperty without a get slot, else the no-argument call of the getter, or the proxy itself rebound to this object; no other proxy is rebound; a cached class's entries, and so its proxies, are kept as they are |
| Propifier.Registry.Set | src/PropifierTrait.php:70-82 | the build's exception, else NoSuchProperty without a set slot, else the setter called with the value; a proxy in the set slot is not callable; cached entries are kept |
| Propifier.Registry.Isset | src/PropifierTrait.php:94-101 | the build's exception, else whether the property's get slot is filled; cached entries are kept |
| Propifier.Registry.Unset | src/PropifierTrait.php:110-122 | the build's exception, else always NoSuchProperty, since extraction keeps no unset slot; cached entries are kept |
| ArrayProperties.LastName | src/ArrayProperty.php:70-83 | reference definition: the name of the last non-null method among getter, setter, iterator |
| ArrayProperties.ArrayProperty.constructor | src/ArrayProperty.php:64-84 | keeps the three methods; the name is that of the last non-null one among getter, setter, iterator; no object is bound yet |
| ArrayProperties.ArrayProperty.This | src/ArrayProperty.php:91-94 | binds the object; methods and name are constants |
| ArrayProperties.ArrayProperty.OffsetGet | src/ArrayProperty.php:105-112 | calls the getter on the bound object with the offset, else NoSuchProperty with the proxy's name |
| ArrayProperties.ArrayProperty.OffsetSet | src/ArrayProperty.php:122-130 | calls the setter with the offset and value, else NoSuchProperty with the proxy's name |
| ArrayProperties.ArrayProperty.OffsetExists | src/ArrayProperty.php:139-142 | no offset ever exists |
| ArrayProperties.ArrayProperty.OffsetUnset | src/ArrayProperty.php:149-152 | changes nothing |
| ArrayProperties.ArrayProperty.GetIterator | src/ArrayProperty.php:161-168 | calls the iterator without arguments, else NoSuchProperty, raised only when iteration starts |
| Propifier.ReadTwice | tests/PropifierTraitTest.php:42-44 | two reads through objects of one class give the same outcome; an indexed property yields the same cached proxy both times, bound to the later object |
| Stubs.DiscoverWithTrait | src/PropifierTrait.php:41-273 | the trait's own methods (`__get`, `__set`, `__isset`, `__unset` and the private helpers) never create a row |
| Stubs.BuildOwn | src/PropifierTrait.php:144-195 | without a custom map, a class of visible methods builds to the extraction of its own methods' classification |
| Stubs.GetOnlyBuild | tests/stubs/GetOnly.php:10-21 | a lone 0-argument `get` method gives a read-only property under its snake-cased name |
| Stubs.SetOnlyBuild | tests/stubs/SetOnly.php:10-20 | a lone 1-argument `set` method gives a write-only property |
| Stubs.ArrayGetOnlyBuild | tests/stubs/ArrayGetOnly.php:5-15 | a lone 1-argument getter gives a get-only proxy |
| Stubs.ArraySetOnlyBuild | tests/stubs/ArraySetOnly.php:5-15 | a lone 2-argument setter gives a setter-only proxy stored in the GET slot, with no set slot |
| Stubs.InvalidSetBuild | tests/stubs/InvalidSet.php:7-15 | the 2-argument public setter builds successfully to a setter-only proxy; no InvalidProperty is raised |
| Stubs.ArrayItrOnlyBuild | tests/stubs/ArrayItrOnly.php:5-20 | an iterator alone makes no property: the map is empty |
| Stubs.NonAccessibleMethodsBuild | tests/stubs/NotAccessibleMethods.php:7-17 | a private getter is invisible: the map is empty |
| Stubs.MismatchBuild | tests/stubs/Mismatch.php:5-20 | getter 1 and setter 1 raise MismatchedProperties with both methods, reported under the getter's name |
| Stubs.ArrayAllBuild | tests/stubs/ArrayAll.php:5-30 | getter 1, setter 2 and an iterator give one proxy carrying all three, in both the get and the set slot |
| Stubs.BooleanPropertiesBuild | tests/stubs/BooleanProperties.php:7-27 | `is` + `set` give a read/write property; the `has` method adds nothing |
| Stubs.UnsettablePropertyBuild | tests/stubs/UnsettableProperty.php:7-27 | get + set give a read/write property; the `unset` method adds nothing |
| Stubs.CustomMappingBuild | tests/stubs/CustomMapping.php:7-26 | a custom entry naming two existing unprefixed methods gives a read/write property under the listed name, verbatim |

## Left out

- Reflection is abstracted: `ReflectionClass`, the `RuntimeException` when it
  fails, and `setAccessible`. A class is given as its list of methods.
- User method bodies are not modelled. Each magic method and proxy method
  returns the `Invocation` it would perform. So the `Dummy` round trip (a
  value set through `__set` is read back through `__get`) is modelled only as
  far as the calls `setSomething($v)` and `getSomething()`.
- Exception message strings are left out. Only the payloads are kept.
- Keys of a custom entry other than `get`, `set`, `itr` and `unset` are
  dropped. PHP stores them in a row slot that nothing reads.
- A missing or non-array `$propertyMap` is modelled as an empty custom table.
  Non-string method names in it are not modelled.
- PHP array-key coercion (numeric-string property names becoming integer keys)
  is not modelled. Property names stay strings.
- Values are null, booleans, integers and strings. Arrays and objects passed as
  values are not modelled.
- `self::$methodMap` is one registry keyed by class name. The PHP rule that
  each class using the trait has its own static copy is not modelled: the keys
  are class names either way, so no lookup differs. Concurrency does not arise.
- ArrayProperties.ArrayProperty.constructor: requires at least one non-null
  method. PHP accepts three nulls but then leaves the typed `$name`
  uninitialised. Extraction never does this.
- ArrayProperties.ArrayProperty.OffsetGet, ArrayProperties.ArrayProperty.OffsetSet
  and ArrayProperties.ArrayProperty.GetIterator: require a bound object when they
  forward. PHP raises an `Error` on reading an uninitialised `$obj`, and every
  proxy handed out by `__get` is bound first.
- The stub classes `Dummy`, `CustomMethodNames`, `ArrayItrAndGet` and
  `ArrayItrAndSet` have no lemma computing their whole map. Each of their rows
  is one cell of `MethodMap.ClassifyEntryShapes`: `Dummy`'s getter 0/setter 1
  pairs become calls by name, its `array` getter 1/setter 2 pair one shared
  proxy, and `ArrayItrAndGet`/`ArrayItrAndSet` a get-slot proxy carrying the
  iterator. `CustomMethodNames` has the shape of `Stubs.CustomMappingBuild`.
