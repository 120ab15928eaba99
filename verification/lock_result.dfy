/**
 * The immutable value a successful acquisition hands to its caller:
 * the resource that was locked, the token that proves ownership and the
 * estimated validity window in milliseconds.
 */
module Results {

  /**
   * All three fields are fixed when the value is built; a datatype value
   * cannot be changed afterwards, which is what the source's final fields say.
   */
  datatype LockResult = LockResult(resource: string, value: string, validity: real)
  {
    function GetResource(): string { resource }

    function GetValue(): string { value }

    function GetValidity(): real { validity }
  }

  /** Each getter returns exactly what the constructor was given. */
  lemma GettersReturnConstructorArguments(resource: string, value: string, validity: real)
    ensures LockResult(resource, value, validity).GetResource() == resource
    ensures LockResult(resource, value, validity).GetValue() == value
    ensures LockResult(resource, value, validity).GetValidity() == validity
  {
  }

  /** Two results with the same getters are the same result: nothing else is stored. */
  lemma GettersDetermineResult(a: LockResult, b: LockResult)
    requires a.GetResource() == b.GetResource()
    requires a.GetValue() == b.GetValue()
    requires a.GetValidity() == b.GetValidity()
    ensures a == b
  {
  }

}
