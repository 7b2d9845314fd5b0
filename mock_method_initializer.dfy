/**
 * MockMethodInitializer (src/AutoMoq.Boost/MockMethodInitializer.cs): the older method
 * initializer. It selects every non-generic, non-void method without asking whether Moq
 * can override it, and binds each setup lazily to the fixture it captured at construction:
 * the value is created at the first call, not during Setup.
 */
module MockMethodInitialization {
  import opened Wrappers
  import opened Reflection
  import opened Expressions
  import opened Kernel
  import opened Moq
  import opened Linq
  import MethodBaseExtensions
  import MockEx
  import Virtual = VirtualMethodInitialization

  /** The filter of Setup: non-generic and not void; overridability is not consulted. */
  predicate IsSetUpByFixture(m: MethodDescriptor) {
    !m.isGenericMethod && m.returnType != Void
  }

  function MethodsSetUpByFixture(t: TypeDescriptor): seq<MethodDescriptor> {
    Where(t.methods, IsSetUpByFixture)
  }

  /** A method of the mocked type is selected iff it is non-generic and not void, sealed or not. */
  lemma SelectedIffNonGenericNonVoid(t: TypeDescriptor, m: MethodDescriptor)
    requires m in t.methods
    ensures m in MethodsSetUpByFixture(t) <==> !m.isGenericMethod && m.returnType != Void
  {
    WhereCounts(t.methods, IsSetUpByFixture);
    assert m in MethodsSetUpByFixture(t) <==> multiset(MethodsSetUpByFixture(t))[m] > 0;
  }

  /** Every method the newer initializer sets up, this one selects too. */
  lemma VirtualSelectionIsNarrower(m: MethodDescriptor)
    ensures Virtual.IsSetUp(m) <==> IsSetUpByFixture(m) && MethodBaseExtensions.IsOverridable(m)
  {
  }

  /**
   * Where a selected method stops the loop: building its pattern throws on a by-ref
   * parameter, and Moq refuses to set up a member it cannot override.
   */
  predicate Breaks(m: MethodDescriptor) {
    Virtual.HasByRefParameter(m) || !MethodBaseExtensions.IsOverridable(m)
  }

  /** Moq's refusal is thrown inside a reflective invocation, so it escapes wrapped. */
  function BreakError(m: MethodDescriptor): Error {
    if Virtual.HasByRefParameter(m) then InvalidTypeArgument else TargetInvocation(NotSupported)
  }

  /**
   * How Setup ends: NullReference on the null a non-mock specimen is cast to, the error of
   * the mocked-type lookup, or the error of the first selected method that breaks the loop.
   */
  function SetupOutcome(mock: Mock?): Outcome {
    if mock == null then Fail(NullReference)
    else match MockEx.GetMockedType(mock)
      case Err(e) => Fail(e)
      case Ok(t) =>
        var methods := MethodsSetUpByFixture(t);
        var k := FirstIndex(methods, Breaks);
        if k == |methods| then Pass else Fail(BreakError(methods[k]))
  }

  class MockMethodInitializer {
    /** The fixture captured at construction; every return value is created from it. */
    const fixture: SpecimenContext

    constructor (fixture: SpecimenContext)
      ensures this.fixture == fixture
    {
      this.fixture := fixture;
    }

    /**
     * Sets up the selected methods in order, each answering lazily from the fixture, which
     * is asked nothing now. The first selected method that breaks the loop ends Setup with
     * its error, keeping the setups made before it.
     */
    method Setup(mock: Mock?) returns (r: Outcome)
      modifies mock
      ensures r == SetupOutcome(mock)
      ensures fixture.requests == old(fixture.requests)
      ensures mock != null ==> mock.setupLog == old(mock.setupLog) + [this]
      ensures mock != null ==> mock.propertyValues == old(mock.propertyValues)
      ensures mock != null && MockEx.GetMockedType(mock).Err? ==> mock.setups == old(mock.setups)
      ensures mock != null && MockEx.GetMockedType(mock).Ok? ==>
        var t := MockEx.GetMockedType(mock).value;
        var methods := MethodsSetUpByFixture(t);
        Virtual.LazilyRegistered(old(mock.setups), mock.setups, t, methods[..FirstIndex(methods, Breaks)], fixture)
      ensures mock != null ==> forall j :: |old(mock.setups)| <= j < |mock.setups| ==> fresh(mock.setups[j])
    {
      if mock == null {
        return Fail(NullReference);
      }
      mock.setupLog := mock.setupLog + [this];
      var mockedType := MockEx.GetMockedType(mock);
      if mockedType.Err? {
        return Fail(mockedType.error);
      }
      var t := mockedType.value;
      var methods := Where(t.methods, IsSetUpByFixture);
      r := SetUpSelected(mock, t, methods);
    }

    /** The loop of Setup over the selected methods, in order. */
    method SetUpSelected(mock: Mock, t: TypeDescriptor, methods: seq<MethodDescriptor>) returns (r: Outcome)
      requires forall j :: 0 <= j < |methods| ==> IsSetUpByFixture(methods[j])
      modifies mock
      ensures mock.setupLog == old(mock.setupLog) && mock.propertyValues == old(mock.propertyValues)
      ensures
        var k := FirstIndex(methods, Breaks);
        && r == (if k == |methods| then Pass else Fail(BreakError(methods[k])))
        && Virtual.LazilyRegistered(old(mock.setups), mock.setups, t, methods[..k], fixture)
      ensures forall j :: |old(mock.setups)| <= j < |mock.setups| ==> fresh(mock.setups[j])
    {
      ghost var k := FirstIndex(methods, Breaks);
      ghost var before := mock.setups;
      var i := 0;
      while i < |methods|
        invariant i <= k
        invariant Virtual.LazilyRegistered(before, mock.setups, t, methods[..i], fixture)
        invariant forall j :: |before| <= j < |mock.setups| ==> fresh(mock.setups[j])
        invariant mock.setupLog == old(mock.setupLog) && mock.propertyValues == old(mock.propertyValues)
      {
        var m := methods[i];
        if Virtual.HasByRefParameter(m) {
          assert i == k;
          return Fail(InvalidTypeArgument);
        }
        if !MethodBaseExtensions.IsOverridable(m) {
          assert i == k;
          return Fail(TargetInvocation(NotSupported));
        }
        assert i < k;
        PrefixSnoc(methods, i);
        var setup := SetUpLazily(mock, t, m, before, methods[..i]);
        i := i + 1;
      }
      assert methods[..k] == methods;
      r := Pass;
    }

    /**
     * One iteration for a method that does not break the loop: its pattern, Moq's setup,
     * then the lazy binding to the fixture.
     */
    method SetUpLazily(mock: Mock, t: TypeDescriptor, m: MethodDescriptor, ghost before: seq<CallSetup>,
                       ghost done: seq<MethodDescriptor>)
      returns (setup: CallSetup)
      requires IsSetUpByFixture(m) && !Breaks(m)
      requires Virtual.LazilyRegistered(before, mock.setups, t, done, fixture)
      modifies mock
      ensures Virtual.LazilyRegistered(before, mock.setups, t, done + [m], fixture)
      ensures fresh(setup) && mock.setups == old(mock.setups) + [setup]
      ensures mock.setupLog == old(mock.setupLog) && mock.propertyValues == old(mock.propertyValues)
    {
      ghost var prior := mock.setups;
      var lambda := Virtual.MakeMethodInvocationLambda(t, m);
      var registered := MockEx.Setup(mock, ReturnTypeOf(m), lambda.value);
      setup := registered.value;
      MockEx.ReturnsUsingFixture(setup, fixture);
      Virtual.PatternsSnoc(before, prior, t, done, m, setup);
      forall j | |before| <= j < |prior| + 1
        ensures (prior + [setup])[j].response == ReturnsLazily(fixture)
      {
        if j < |prior| {
          assert (prior + [setup])[j] == prior[j] && prior[j] != setup;
        }
      }
    }
  }

  /**
   * A well-typed call of the j-th registered method is answered by its own setup, which
   * resolves the method's return type from the captured fixture when it is first called.
   */
  lemma LazilyAnswered(before: seq<CallSetup>, after: seq<CallSetup>, t: TypeDescriptor,
                       methods: seq<MethodDescriptor>, fixture: SpecimenContext, j: nat, inv: Invocation)
    requires Virtual.LazilyRegistered(before, after, t, methods, fixture)
    requires j < |methods| && inv.callee == methods[j] && WellTyped(inv)
    requires forall i :: j < i < |methods| ==> methods[i] != methods[j]
    ensures LastMatch(after, inv) == Some(|before| + j)
    ensures after[|before| + j].response == ReturnsLazily(fixture)
    ensures after[|before| + j].resultType == ReturnTypeOf(methods[j])
  {
    Virtual.RegisteredAnswersCall(before, after, t, methods, j, inv);
  }

  /**
   * Under the newer initializer's filter, no selected method without a by-ref parameter
   * stops the loop: Moq accepts every one of them.
   */
  lemma OverridableSelectionNeverRefused(m: MethodDescriptor)
    requires Virtual.IsSetUp(m) && !Virtual.HasByRefParameter(m)
    ensures IsSetUpByFixture(m) && !Breaks(m)
  {
  }

  /** The unit tests' interface with one string method, and a class whose method is `override sealed`. */
  const SomeMethod := MethodDescriptor("SomeMethod", true, false, false, Returns("String"), [])
  const InterfaceWithMethod := TypeDescriptor("IInterfaceWithMethod", [SomeMethod], [])
  const SealedOverride := MethodDescriptor("AbstractMethod", true, true, false, Returns("String"), [])
  const ClassWithSealedMethod := TypeDescriptor("ClassWithSealedMethod", [SealedOverride], [])

  lemma {:induction false} SingleMethodSelection(m: MethodDescriptor)
    requires IsSetUpByFixture(m)
    ensures Where([m], IsSetUpByFixture) == [m]
  {
    WhereSnoc([], m, IsSetUpByFixture);
    assert [] + [m] == [m];
  }

  /** Setup on a fresh mock of the interface with a string method, from an unused fixture. */
  method SetUpInterfaceWithMethod(fixture: SpecimenContext) returns (r: Outcome, mock: Mock)
    ensures fresh(mock) && r == Pass && fixture.requests == old(fixture.requests)
    ensures |mock.setups| == 1 && fresh(mock.setups[0])
    ensures LastMatch(mock.setups, Invocation(SomeMethod, [])) == Some(0)
    ensures mock.setups[0].response == ReturnsLazily(fixture) && mock.setups[0].resultType == "String"
  {
    SingleMethodSelection(SomeMethod);
    assert FirstIndex([SomeMethod], Breaks) == 1;
    var initializer := new MockMethodInitializer(fixture);
    mock := new Mock([InterfaceWithMethod]);
    r := initializer.Setup(mock);
    assert [SomeMethod][..1] == [SomeMethod];
    LazilyAnswered([], mock.setups, InterfaceWithMethod, [SomeMethod], fixture, 0, Invocation(SomeMethod, []));
  }

  /**
   * The interface's string method is answered from the captured fixture, lazily: no request
   * during Setup, one at the first call, and the second call returns the same value.
   */
  method InterfaceMethodScenario(oracle: (TypeName, nat) -> Value)
    returns (r: Outcome, atSetup: nat, first: Reply, afterFirst: nat, second: Reply, afterSecond: nat)
    ensures r == Pass && atSetup == 0 && afterFirst == 1 && afterSecond == 1
    ensures first == Returned(oracle("String", 0)) && second == first
  {
    var fixture := new SpecimenContext(oracle);
    var mock;
    r, mock := SetUpInterfaceWithMethod(fixture);
    atSetup := |fixture.requests|;
    var call := Invocation(SomeMethod, []);
    assert mock.InvokeFrame(call) == {mock.setups[0], fixture};
    first := mock.Invoke(call);
    afterFirst := |fixture.requests|;
    assert mock.InvokeFrame(call) == {mock.setups[0]};
    second := mock.Invoke(call);
    afterSecond := |fixture.requests|;
  }

  /**
   * As written, an `override sealed` method is selected, Moq refuses to set it up, and
   * Setup fails, the refusal wrapped by the reflective invocation, with nothing registered.
   */
  method SealedMethodScenario(oracle: (TypeName, nat) -> Value) returns (r: Outcome, registered: nat, requests: nat)
    ensures r == Fail(TargetInvocation(NotSupported)) && registered == 0 && requests == 0
  {
    SingleMethodSelection(SealedOverride);
    assert FirstIndex([SealedOverride], Breaks) == 0;
    var fixture := new SpecimenContext(oracle);
    var initializer := new MockMethodInitializer(fixture);
    var mock := new Mock([ClassWithSealedMethod]);
    r := initializer.Setup(mock);
    registered := |mock.setups|;
    requests := |fixture.requests|;
  }
}
