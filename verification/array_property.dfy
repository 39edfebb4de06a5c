/**
 * ArrayProperty (src/ArrayProperty.php): the proxy returned for an indexed
 * property. Its methods are fixed at construction; only the bound object
 * changes, rebound by __get on every read.
 */
module ArrayProperties {
  import opened Wrappers
  import opened Methods
  import opened Errors
  import opened Host

  /** The name a proxy reports: that of its last non-null method among getter, setter and iterator. */
  function LastName(getter: Option<Method>, setter: Option<Method>, itr: Option<Method>): (r: string) {
    if itr.Some? then itr.value.name
    else if setter.Some? then setter.value.name
    else if getter.Some? then getter.value.name
    else ""
  }

  class ArrayProperty {
    const getter: Option<Method>
    const setter: Option<Method>
    const itr: Option<Method>
    /** The name reported when an operation is refused. */
    const name: string
    /** The bound instance; null until this() is first called. */
    var obj: Instance?

    /**
     * The name is that of the last non-null method among getter, setter and
     * iterator. The source also admits three nulls, which leaves the typed
     * $name uninitialised; every caller passes a getter or a setter.
     */
    constructor (getter: Option<Method>, setter: Option<Method>, itr: Option<Method>)
      requires getter.Some? || setter.Some? || itr.Some?
      ensures this.getter == getter && this.setter == setter && this.itr == itr
      ensures itr.Some? ==> name == itr.value.name
      ensures itr.None? && setter.Some? ==> name == setter.value.name
      ensures itr.None? && setter.None? ==> name == getter.value.name
      ensures name == LastName(getter, setter, itr)
      ensures obj == null
    {
      this.getter := getter;
      this.setter := setter;
      this.itr := itr;
      var n := "";
      if getter.Some? {
        n := getter.value.name;
      }
      if setter.Some? {
        n := setter.value.name;
      }
      if itr.Some? {
        n := itr.value.name;
      }
      this.name := n;
      this.obj := null;
    }

    /** this($obj): rebinds the proxy; its methods and name are constants. */
    method This(o: Instance)
      modifies this
      ensures obj == o
    {
      obj := o;
    }

    /** $proxy[$offset]: getter($obj, $offset), or NoSuchProperty(name) without a getter. */
    method OffsetGet(offset: Value) returns (r: Result<Invocation, PropertyError>)
      requires getter.Some? ==> obj != null
      ensures getter.Some? ==> r == Success(Invocation(obj, getter.value.name, [offset]))
      ensures getter.None? ==> r == Failure(NoSuchProperty(name))
    {
      if getter.Some? {
        return Success(Invocation(obj, getter.value.name, [offset]));
      }
      return Failure(NoSuchProperty(name));
    }

    /** $proxy[$offset] = $value: one call setter($obj, $offset, $value), or NoSuchProperty(name). */
    method OffsetSet(offset: Value, value: Value) returns (r: Result<Invocation, PropertyError>)
      requires setter.Some? ==> obj != null
      ensures setter.Some? ==> r == Success(Invocation(obj, setter.value.name, [offset, value]))
      ensures setter.None? ==> r == Failure(NoSuchProperty(name))
    {
      if setter.Some? {
        return Success(Invocation(obj, setter.value.name, [offset, value]));
      }
      return Failure(NoSuchProperty(name));
    }

    /** isset($proxy[$offset]): no offset ever exists. */
    method OffsetExists(offset: Value) returns (b: bool)
      ensures !b
    {
      return false;
    }

    /** unset($proxy[$offset]): does nothing. */
    method OffsetUnset(offset: Value)
      ensures unchanged(this)
    {
    }

    /** foreach ($proxy as ...): iterator($obj), or NoSuchProperty(name) only now, when iteration starts. */
    method GetIterator() returns (r: Result<Invocation, PropertyError>)
      requires itr.Some? ==> obj != null
      ensures itr.Some? ==> r == Success(Invocation(obj, itr.value.name, []))
      ensures itr.None? ==> r == Failure(NoSuchProperty(name))
    {
      if itr.Some? {
        return Success(Invocation(obj, itr.value.name, []));
      }
      return Failure(NoSuchProperty(name));
    }
  }
}
