/**
 * What System.Reflection tells the auto-setup code about a mocked type, as plain data.
 * A type lists its public instance methods (property accessors included, as the runtime
 * lists them) and its public instance properties, in the order reflection returns them.
 * Static members are not represented.
 */
module Reflection {
  import opened Wrappers

  type TypeName = string

  /** An opaque runtime value: whatever the value context produced, or a mock's baseline. */
  datatype Value = Value(token: int)

  datatype ReturnType = Void | Returns(typeName: TypeName)

  /**
   * A declared parameter. In C#, `out` parameters are also by-ref; `ref` parameters are
   * by-ref and not out. The flags are kept separate, as ParameterInfo keeps them.
   */
  datatype ParameterDescriptor = ParameterDescriptor(
    name: string,
    parameterType: TypeName,
    isByRef: bool,
    isOut: bool)

  /** A method or accessor, with the MethodBase flags the auto-setup code inspects. */
  datatype MethodDescriptor = MethodDescriptor(
    name: string,
    isVirtual: bool,
    isFinal: bool,
    isGenericMethod: bool,
    returnType: ReturnType,
    parameters: seq<ParameterDescriptor>)

  /**
   * A property. canRead / canWrite say whether a get / set accessor exists at all;
   * getMethod / setMethod are the PUBLIC accessors (GetGetMethod() / GetSetMethod()),
   * None when the accessor is missing or not public.
   */
  datatype PropertyDescriptor = PropertyDescriptor(
    name: string,
    propertyType: TypeName,
    canRead: bool,
    canWrite: bool,
    getMethod: Option<MethodDescriptor>,
    setMethod: Option<MethodDescriptor>)

  /** MethodInfo.ReturnType: the declared result type; that of a void method is System.Void. */
  function ReturnTypeOf(m: MethodDescriptor): TypeName {
    if m.returnType.Returns? then m.returnType.typeName else "Void"
  }

  function PropertyTypeOf(p: PropertyDescriptor): TypeName {
    p.propertyType
  }

  datatype TypeDescriptor = TypeDescriptor(
    name: TypeName,
    methods: seq<MethodDescriptor>,
    properties: seq<PropertyDescriptor>)
}
