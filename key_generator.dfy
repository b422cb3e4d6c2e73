/** Key generators, as far as rule building sees them. */
module KeyGenerators {
  import opened Results

  /** A key generator instance; the model keeps only the class it was created from. */
  datatype KeyGenerator = KeyGenerator(className: string)

  /**
   * KeyGeneratorFactory.newInstance. Reflective class loading is abstracted to a
   * predicate saying whether the named class can be instantiated.
   */
  function NewInstance(className: string, isInstantiable: string -> bool): (r: Result<KeyGenerator>)
    ensures r.Success? <==> isInstantiable(className)
    ensures r.Success? ==> r.value.className == className
    ensures r.Failure? ==> r.error.IllegalArgument?
  {
    if isInstantiable(className) then Success(KeyGenerator(className))
    else Failure(IllegalArgument("Class " + className + " should have public privilege and no argument constructor"))
  }
}
