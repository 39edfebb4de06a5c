/**
 * What PHP reflection tells PropifierTrait about a class. ReflectionClass,
 * getMethods, getNumberOfParameters, method_exists and new ReflectionMethod are
 * replaced by a plain list of method records in enumeration order.
 */
module Methods {
  import opened Wrappers
  import SnakeCase

  datatype Visibility = Public | Protected | Private

  /** One reflected method: its declared name, getNumberOfParameters() and visibility. */
  datatype Method = Method(name: string, arity: nat, visibility: Visibility)

  /** get_class($this). */
  type ClassId = string

  /**
   * The optional static $propertyMap of a class, in declaration order:
   * property name => (slot key => method name). A class without the property
   * has the empty table, which the merge treats identically.
   */
  type CustomMap = seq<(string, seq<(string, string)>)>

  /** Everything the build reads from a class: its name, all its methods and its custom table. */
  datatype ClassDecl = ClassDecl(id: ClassId, methods: seq<Method>, propertyMap: CustomMap)

  /**
   * getMethods(IS_PUBLIC | IS_PROTECTED): the methods in enumeration order,
   * private ones dropped.
   */
  function Discoverable(ms: seq<Method>): (r: seq<Method>)
    ensures |r| <= |ms|
    ensures forall m :: m in r <==> m in ms && m.visibility != Private
  {
    if ms == [] then []
    else
      var rest := Discoverable(ms[..|ms| - 1]);
      var last := ms[|ms| - 1];
      assert ms == ms[..|ms| - 1] + [last];
      if last.visibility == Private then rest else rest + [last]
  }

  /** PHP method names compare case-insensitively (ASCII). */
  predicate SameName(a: string, b: string) {
    SnakeCase.LowerAll(a) == SnakeCase.LowerAll(b)
  }

  /**
   * method_exists($this, $name) followed by new ReflectionMethod($this, $name):
   * looks among ALL methods, private ones included.
   */
  function FindMethod(ms: seq<Method>, name: string): (r: Option<Method>)
    ensures r.Some? ==> r.value in ms && SameName(r.value.name, name)
    ensures r.None? ==> forall m :: m in ms ==> !SameName(m.name, name)
  {
    if ms == [] then None
    else if SameName(ms[0].name, name) then Some(ms[0])
    else FindMethod(ms[1..], name)
  }
}
