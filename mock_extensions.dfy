/**
 * The older mock extensions (src/AutoMoq.Boost/Extensions/MockExtensions.cs): the mocked
 * type of a mock, and the eager binding of a setup to a value created from a fixture.
 */
module MockExtensions {
  import opened Wrappers
  import opened Reflection
  import opened Expressions
  import opened Kernel
  import opened Moq
  import MockEx

  /** The same lookup as MockEx's, of which this file holds a second copy. */
  function GetMockedType(mock: Mock): (r: Result<TypeDescriptor>)
    ensures r.Ok? <==> |mock.typeArguments| == 1
    ensures r.Ok? ==> r.value == mock.typeArguments[0]
    ensures r.Err? ==> r.error == InvalidOperation
  {
    MockEx.GetMockedType(mock)
  }

  /** Resolves the result type now, once, and binds the setup to that constant. */
  method ReturnsFromFixtureAux(setup: CallSetup, fixture: SpecimenContext)
    modifies setup, fixture
    ensures fixture.requests == old(fixture.requests) + [setup.resultType]
    ensures setup.response == ReturnsValue(fixture.oracle(setup.resultType, |old(fixture.requests)|))
  {
    var v := fixture.Resolve(setup.resultType);
    setup.response := ReturnsValue(v);
  }

  /**
   * The reflective dispatch to ReturnsFromFixtureAux<TMock, TResult> at
   * (mockedType, memberType); invoking it on a setup of other types throws.
   */
  method ReturnsFromFixture(setup: CallSetup, fixture: SpecimenContext, mockedType: TypeName, memberType: TypeName)
    returns (r: Outcome)
    modifies setup, fixture
    ensures var fits := setup.expression.parameter.parameterType == mockedType && setup.resultType == memberType;
      fits ==>
        && r == Pass
        && fixture.requests == old(fixture.requests) + [memberType]
        && setup.response == ReturnsValue(fixture.oracle(memberType, |old(fixture.requests)|))
    ensures var fits := setup.expression.parameter.parameterType == mockedType && setup.resultType == memberType;
      !fits ==>
        && r == Fail(ArgumentMismatch)
        && fixture.requests == old(fixture.requests)
        && setup.response == old(setup.response)
  {
    if setup.expression.parameter.parameterType == mockedType && setup.resultType == memberType {
      ReturnsFromFixtureAux(setup, fixture);
      r := Pass;
    } else {
      r := Fail(ArgumentMismatch);
    }
  }

  /**
   * The eager binding resolves at setup time, exactly once; every later call returns the
   * pre-resolved value without resolving again.
   */
  method EagerBindingScenario(oracle: (TypeName, nat) -> Value, mocked: TypeDescriptor, m: MethodDescriptor)
    returns (atSetup: nat, afterCalls: nat, first: Reply, second: Reply)
    requires m.isVirtual && !m.isFinal && m.returnType.Returns? && m.parameters == []
    ensures atSetup == 1 && afterCalls == 1
    ensures first == Returned(oracle(m.returnType.typeName, 0)) && second == first
  {
    var fixture := new SpecimenContext(oracle);
    var mock := new Mock([mocked]);
    var x := ParameterExpression(mocked.name, "x");
    var registered := mock.RegisterSetup(Lambda(MethodCall(x, m, []), x), m.returnType.typeName);
    var bound := ReturnsFromFixture(registered.value, fixture, mocked.name, m.returnType.typeName);
    atSetup := |fixture.requests|;
    var call := Invocation(m, []);
    first := mock.Invoke(call);
    second := mock.Invoke(call);
    afterCalls := |fixture.requests|;
  }
}
