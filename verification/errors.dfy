/** The exceptions of src/Exception, reduced to the payloads they store. */
module Errors {
  import opened Wrappers
  import opened Methods

  datatype PropertyError =
    /** NoSuchPropertyException: the property (or proxy) name. */
    | NoSuchProperty(property: string)
    /** InvalidPropertyException: the accessor or mutator with an unusable arity. */
    | InvalidProperty(offender: Method)
    /** MismatchedPropertiesException: the getter and setter whose arities disagree. */
    | MismatchedProperties(getter: Option<Method>, setter: Option<Method>)
    /**
     * Not one of the library's exceptions: the PHP Error raised when __set
     * calls $this->{$method}($value) with an ArrayProperty instead of a name.
     */
    | NotCallable(property: string)
  {
    /** The name a MismatchedPropertiesException reports: the getter's, else the setter's, else empty. */
    function ReportedName(): (r: string)
      requires MismatchedProperties?
    {
      if getter.Some? then getter.value.name
      else if setter.Some? then setter.value.name
      else ""
    }
  }
}
