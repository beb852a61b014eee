/** Values shared by the registry, the test context and the stack tracer. */
module Values {

  /** PHP's `false`/`null` "not set" marker next to a real value. */
  datatype Option<+T> = None | Some(value: T)

  /**
   * An opaque PHP object: the class it was instantiated from and an identity,
   * so that two `new X()` calls give two different objects.
   */
  datatype Obj = Obj(className: string, id: nat)
}
