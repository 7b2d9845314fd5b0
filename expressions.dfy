/**
 * The expression trees the initializers hand to Moq (`x => x.Method(It.IsAny<A>(), ...)`
 * and `x => x.Prop`), and what it means for a call on the mock to match one.
 */
module Expressions {
  import opened Wrappers
  import opened Reflection

  /** The lambda's single parameter, the receiver `x`. */
  datatype ParameterExpression = ParameterExpression(parameterType: TypeName, name: string)

  /** It.IsAny<T>(): matches any argument of static type T. */
  datatype Matcher = IsAny(matchedType: TypeName)

  datatype Body =
    | MethodCall(instance: ParameterExpression, callee: MethodDescriptor, arguments: seq<Matcher>)
    | PropertyAccess(instance: ParameterExpression, property: PropertyDescriptor)

  datatype Lambda = Lambda(body: Body, parameter: ParameterExpression)

  /** An argument passed in a call on the mocked object, with its static type. */
  datatype Argument = Argument(argumentType: TypeName, value: Value)

  /** A call on the mocked object; reading a property is a call of its get accessor. */
  datatype Invocation = Invocation(callee: MethodDescriptor, arguments: seq<Argument>)

  predicate Accepts(m: Matcher, a: Argument) {
    a.argumentType == m.matchedType
  }

  /** The member Moq intercepts for a lambda: the called method, or the property's public getter. */
  function Target(l: Lambda): Option<MethodDescriptor> {
    match l.body
    case MethodCall(_, m, _) => Some(m)
    case PropertyAccess(_, p) => p.getMethod
  }

  /** The lambda's body is applied to the lambda's own parameter. */
  predicate OnOwnParameter(l: Lambda) {
    l.body.instance == l.parameter
  }

  predicate Matches(l: Lambda, inv: Invocation) {
    match l.body
    case MethodCall(_, m, matchers) =>
      && inv.callee == m
      && |inv.arguments| == |matchers|
      && forall i :: 0 <= i < |matchers| ==> Accepts(matchers[i], inv.arguments[i])
    case PropertyAccess(_, p) =>
      p.getMethod == Some(inv.callee) && inv.arguments == []
  }

  /** A call passing one argument of each declared parameter's type, in declaration order. */
  predicate WellTyped(inv: Invocation) {
    && |inv.arguments| == |inv.callee.parameters|
    && forall i :: 0 <= i < |inv.arguments| ==>
         inv.arguments[i].argumentType == inv.callee.parameters[i].parameterType
  }
}
