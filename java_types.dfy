/**
 * The small part of the Java runtime and of javaruntype that the evaluator
 * relies on: raw classes, declared result types with their raw class, and
 * the reflective assignability test. Reflection itself is not modelled; the
 * class of a value and the assignability relation are parameters.
 */
module JavaTypes {

  /**
   * A raw `java.lang.Class` of a reference type: a named class or interface,
   * or an array class. Primitive classes such as `int.class` never arise,
   * since a value returned by OGNL is boxed.
   */
  datatype JClass = Class(name: string) | ArrayClass(component: JClass)

  const ObjectClass: JClass := Class("java.lang.Object")
  const ListClass: JClass := Class("java.util.List")
  const SetClass: JClass := Class("java.util.Set")
  const IntegerClass: JClass := Class("java.lang.Integer")

  /**
   * A javaruntype `Type<R>`: a plain class, or a parameterised list, set or
   * array type built by `Types.listOf`, `Types.setOf` or `Types.arrayOf`.
   */
  datatype JType = Raw(cls: JClass) | ListOf(element: JType) | SetOf(element: JType) | ArrayOf(component: JType)

  /** `Types.OBJECT` and `Types.INTEGER`. */
  const ObjectType: JType := Raw(ObjectClass)
  const IntegerType: JType := Raw(IntegerClass)

  /** `Type.getRawClass()`: type arguments are erased. */
  function RawClass(t: JType): JClass {
    match t
    case Raw(c) => c
    case ListOf(_) => ListClass
    case SetOf(_) => SetClass
    case ArrayOf(c) => ArrayClass(RawClass(c))
  }

  /**
   * What the evaluator asks of the Java runtime about a value of type `V`:
   * `classOf(v)` is `v.getClass()`, and `isAssignableFrom(c, d)` is
   * `c.isAssignableFrom(d)`.
   */
  datatype Runtime<!V> = Runtime(classOf: V -> JClass, isAssignableFrom: (JClass, JClass) -> bool) {

    /** Assignability is reflexive and `Object` is above every reference class. */
    ghost predicate Valid() {
      && (forall c: JClass :: isAssignableFrom(c, c))
      && (forall c: JClass :: isAssignableFrom(ObjectClass, c))
    }
  }
}
