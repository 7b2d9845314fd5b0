/**
 * Mock extensions (src/AutoMoq.Boost/MockEx.cs): the mocked type of a mock, and the lazy,
 * memoising binding of a setup's return value to a value context.
 */
module MockEx {
  import opened Wrappers
  import opened Reflection
  import opened Expressions
  import opened Kernel
  import opened Moq

  /** The mock's single generic argument; Enumerable.Single throws unless there is exactly one. */
  function GetMockedType(mock: Mock): (r: Result<TypeDescriptor>)
    ensures r.Ok? <==> |mock.typeArguments| == 1
    ensures r.Ok? ==> r.value == mock.typeArguments[0]
    ensures r.Err? ==> r.error == InvalidOperation
  {
    if |mock.typeArguments| == 1 then Ok(mock.typeArguments[0]) else Err(InvalidOperation)
  }

  /**
   * `mock.Setup(memberType, expression)`: Moq's generic Setup, instantiated at the member's
   * type and invoked through reflection. A member Moq refuses escapes as a
   * TargetInvocation wrapping NotSupported.
   */
  method Setup(mock: Mock, memberType: TypeName, expression: Lambda) returns (r: Result<CallSetup>)
    modifies mock
    ensures Interceptable(expression) ==>
      && r.Ok? && fresh(r.value)
      && r.value.expression == expression && r.value.resultType == memberType
      && r.value.response == NoReturn
      && mock.setups == old(mock.setups) + [r.value]
    ensures !Interceptable(expression) ==> r == Err(TargetInvocation(NotSupported)) && mock.setups == old(mock.setups)
    ensures mock.propertyValues == old(mock.propertyValues) && mock.setupLog == old(mock.setupLog)
  {
    var registered := mock.RegisterSetup(expression, memberType);
    if registered.Err? {
      return Err(TargetInvocation(registered.error));
    }
    r := registered;
  }

  /**
   * Installs the memoising closure: nothing is resolved now. The first matching call
   * resolves once and rebinds the setup to that value (CallSetup.Respond).
   */
  method ReturnsUsingContext(setup: CallSetup, context: SpecimenContext)
    modifies setup
    ensures setup.response == ReturnsLazily(context)
    ensures context.requests == old(context.requests)
  {
    setup.response := ReturnsLazily(context);
  }

  /** The same binding over a context that wraps the fixture. */
  method ReturnsUsingFixture(setup: CallSetup, fixture: SpecimenContext)
    modifies setup
    ensures setup.response == ReturnsLazily(fixture)
    ensures fixture.requests == old(fixture.requests)
  {
    ReturnsUsingContext(setup, fixture);
  }

  /**
   * The laziness the unit tests observe: registering resolves nothing, the first call
   * resolves exactly once and returns that value, and the second call returns the same
   * value without resolving again.
   */
  method LazyBindingScenario(oracle: (TypeName, nat) -> Value, mocked: TypeDescriptor, m: MethodDescriptor)
    returns (atSetup: nat, afterFirst: nat, afterSecond: nat, first: Reply, second: Reply)
    requires m.isVirtual && !m.isFinal && m.returnType.Returns? && m.parameters == []
    ensures atSetup == 0 && afterFirst == 1 && afterSecond == 1
    ensures first == Returned(oracle(m.returnType.typeName, 0))
    ensures second == first
  {
    var fixture := new SpecimenContext(oracle);
    var mock := new Mock([mocked]);
    var x := ParameterExpression(mocked.name, "x");
    var registered := mock.RegisterSetup(Lambda(MethodCall(x, m, []), x), m.returnType.typeName);
    ReturnsUsingFixture(registered.value, fixture);
    atSetup := |fixture.requests|;
    var call := Invocation(m, []);
    first := mock.Invoke(call);
    afterFirst := |fixture.requests|;
    second := mock.Invoke(call);
    afterSecond := |fixture.requests|;
  }
}
