/**
 * The objects PropifierTrait works on. User methods are not executed here: an
 * Invocation records the call the library makes ($obj->method(...) or
 * ReflectionMethod::invoke), and its result is whatever that method returns.
 */
module Host {
  import opened Methods

  /** The PHP values passed to setters and used as offsets. */
  datatype Value = Null | Bool(b: bool) | Int(i: int) | Str(s: string)

  /** An instance of a class that uses the trait; get_class($this) is decl.id. */
  class Instance {
    const decl: ClassDecl

    constructor (decl: ClassDecl)
      ensures this.decl == decl
    {
      this.decl := decl;
    }
  }

  /** A call of the user method `callee` on `receiver` with `args`. */
  datatype Invocation = Invocation(receiver: Instance, callee: string, args: seq<Value>)
}
