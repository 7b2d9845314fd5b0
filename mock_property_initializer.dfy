/**
 * MockPropertyInitializer (src/AutoMoq.Boost/MockPropertyInitializer.cs): the older
 * property initializer. Every readable property gets a getter setup, bound lazily to the
 * fixture it captured at construction: the value is created at the first read, not during
 * Setup.
 */
module MockPropertyInitialization {
  import opened Wrappers
  import opened Reflection
  import opened Expressions
  import opened Kernel
  import opened Moq
  import opened Linq
  import MethodBaseExtensions
  import MockEx

  /** The filter of Setup: the property has a get accessor; nothing else is consulted. */
  predicate IsSetUpByFixture(p: PropertyDescriptor) {
    p.canRead
  }

  function PropertiesSetUpByFixture(t: TypeDescriptor): seq<PropertyDescriptor> {
    Where(t.properties, IsSetUpByFixture)
  }

  /** A property of the mocked type is selected iff it can be read, whatever its accessors' flags. */
  lemma SelectedIffReadable(t: TypeDescriptor, p: PropertyDescriptor)
    requires p in t.properties
    ensures p in PropertiesSetUpByFixture(t) <==> p.canRead
  {
    WhereCounts(t.properties, IsSetUpByFixture);
    assert p in PropertiesSetUpByFixture(t) <==> multiset(PropertiesSetUpByFixture(t))[p] > 0;
  }

  /** `x => x.Prop`: a member access on the lambda's parameter, typed as the mocked type. */
  function MakePropertyAccessLambda(mockedType: TypeDescriptor, p: PropertyDescriptor): (r: Lambda)
    ensures OnOwnParameter(r) && r.parameter.parameterType == mockedType.name
    ensures Target(r) == p.getMethod
  {
    var x := ParameterExpression(mockedType.name, "x");
    Lambda(PropertyAccess(x, p), x)
  }

  /** The access pattern matches exactly the argument-less calls of the property's public getter. */
  lemma PropertyAccessMatchesExactly(t: TypeDescriptor, p: PropertyDescriptor, inv: Invocation)
    ensures Matches(MakePropertyAccessLambda(t, p), inv) <==> Some(inv.callee) == Target(MakePropertyAccessLambda(t, p)) && inv.arguments == []
  {
  }

  /** Where a selected property stops the loop: Moq cannot intercept a missing, non-public or sealed getter. */
  predicate Breaks(p: PropertyDescriptor) {
    p.getMethod.None? || !MethodBaseExtensions.IsOverridable(p.getMethod.value)
  }

  lemma BreaksIffNotInterceptable(t: TypeDescriptor, p: PropertyDescriptor)
    ensures Breaks(p) <==> !Interceptable(MakePropertyAccessLambda(t, p))
  {
  }

  /**
   * The setups appended after `before`: one per property, in order, each with that
   * property's access pattern and the property's type as result type.
   */
  predicate AccessesRegistered(before: seq<CallSetup>, after: seq<CallSetup>, t: TypeDescriptor,
                               props: seq<PropertyDescriptor>)
  {
    && |after| == |before| + |props|
    && after[..|before|] == before
    && forall j :: 0 <= j < |props| ==>
         && after[|before| + j].expression == MakePropertyAccessLambda(t, props[j])
         && after[|before| + j].resultType == props[j].propertyType
  }

  /** One more setup, with the next property's access pattern and type, keeps the accesses registered. */
  lemma AccessesSnoc(before: seq<CallSetup>, setups: seq<CallSetup>, t: TypeDescriptor, done: seq<PropertyDescriptor>,
                     p: PropertyDescriptor, s: CallSetup)
    requires AccessesRegistered(before, setups, t, done)
    requires s.expression == MakePropertyAccessLambda(t, p) && s.resultType == p.propertyType
    ensures AccessesRegistered(before, setups + [s], t, done + [p])
  {
    var after := setups + [s];
    assert after[..|before|] == setups[..|before|];
    forall j | 0 <= j < |done| + 1
      ensures after[|before| + j].expression == MakePropertyAccessLambda(t, (done + [p])[j])
      ensures after[|before| + j].resultType == (done + [p])[j].propertyType
    {
      if j < |done| {
        assert after[|before| + j] == setups[|before| + j];
      }
    }
  }

  /** The setups registered by Setup, one per property, each answering lazily from `fixture`. */
  ghost predicate LazilyRegistered(before: seq<CallSetup>, after: seq<CallSetup>, t: TypeDescriptor,
                                   props: seq<PropertyDescriptor>, fixture: SpecimenContext)
    reads after
  {
    && AccessesRegistered(before, after, t, props)
    && forall j :: |before| <= j < |after| ==> after[j].response == ReturnsLazily(fixture)
  }

  /**
   * How Setup ends: NullReference on the null a non-mock specimen is cast to, the error of
   * the mocked-type lookup, or Moq's refusal of a getter, wrapped by the reflective
   * invocation.
   */
  function SetupOutcome(mock: Mock?): Outcome {
    if mock == null then Fail(NullReference)
    else match MockEx.GetMockedType(mock)
      case Err(e) => Fail(e)
      case Ok(t) =>
        var props := PropertiesSetUpByFixture(t);
        if FirstIndex(props, Breaks) == |props| then Pass else Fail(TargetInvocation(NotSupported))
  }

  class MockPropertyInitializer {
    /** The fixture captured at construction; every property value is created from it. */
    const fixture: SpecimenContext

    constructor (fixture: SpecimenContext)
      ensures this.fixture == fixture
    {
      this.fixture := fixture;
    }

    /**
     * Sets up the readable properties' getters in order, each answering lazily from the
     * fixture, which is asked nothing now. The first readable property Moq cannot
     * intercept ends Setup with Moq's refusal, keeping the setups made before it.
     */
    method Setup(mock: Mock?) returns (r: Outcome)
      modifies mock
      ensures r == SetupOutcome(mock)
      ensures fixture.requests == old(fixture.requests)
      ensures mock != null ==> mock.setupLog == old(mock.setupLog) + [this]
      ensures mock != null ==> mock.propertyValues == old(mock.propertyValues)
      ensures mock != null && MockEx.GetMockedType(mock).Err? ==> mock.setups == old(mock.setups)
      ensures mock != null && MockEx.GetMockedType(mock).Ok? ==>
        var t := MockEx.GetMockedType(mock).value;
        var props := PropertiesSetUpByFixture(t);
        LazilyRegistered(old(mock.setups), mock.setups, t, props[..FirstIndex(props, Breaks)], fixture)
      ensures mock != null ==> forall j :: |old(mock.setups)| <= j < |mock.setups| ==> fresh(mock.setups[j])
    {
      if mock == null {
        return Fail(NullReference);
      }
      mock.setupLog := mock.setupLog + [this];
      var mockedType := MockEx.GetMockedType(mock);
      if mockedType.Err? {
        return Fail(mockedType.error);
      }
      var t := mockedType.value;
      var props := Where(t.properties, IsSetUpByFixture);
      r := SetUpSelected(mock, t, props);
    }

    /** The loop of Setup over the readable properties, in order. */
    method SetUpSelected(mock: Mock, t: TypeDescriptor, props: seq<PropertyDescriptor>) returns (r: Outcome)
      modifies mock
      ensures mock.setupLog == old(mock.setupLog) && mock.propertyValues == old(mock.propertyValues)
      ensures
        var k := FirstIndex(props, Breaks);
        && r == (if k == |props| then Pass else Fail(TargetInvocation(NotSupported)))
        && LazilyRegistered(old(mock.setups), mock.setups, t, props[..k], fixture)
      ensures forall j :: |old(mock.setups)| <= j < |mock.setups| ==> fresh(mock.setups[j])
    {
      ghost var k := FirstIndex(props, Breaks);
      ghost var before := mock.setups;
      var i := 0;
      while i < |props|
        invariant i <= k
        invariant LazilyRegistered(before, mock.setups, t, props[..i], fixture)
        invariant forall j :: |before| <= j < |mock.setups| ==> fresh(mock.setups[j])
        invariant mock.setupLog == old(mock.setupLog) && mock.propertyValues == old(mock.propertyValues)
      {
        var p := props[i];
        ghost var prior := mock.setups;
        var o, setup := SetUpAccess(mock, t, p, before, props[..i]);
        if o.Fail? {
          assert i == k;
          return o;
        }
        assert i < k;
        PrefixSnoc(props, i);
        forall j | |before| <= j < |prior| + 1
          ensures fresh((prior + [setup])[j])
        {
          if j < |prior| {
            assert (prior + [setup])[j] == prior[j];
          }
        }
        i := i + 1;
      }
      assert props[..k] == props;
      r := Pass;
    }

    /**
     * One iteration: Moq's setup of the property's getter, refused when the getter cannot
     * be intercepted, then the lazy binding to the fixture.
     */
    method SetUpAccess(mock: Mock, t: TypeDescriptor, p: PropertyDescriptor, ghost before: seq<CallSetup>,
                       ghost done: seq<PropertyDescriptor>)
      returns (o: Outcome, ghost setup: CallSetup?)
      requires LazilyRegistered(before, mock.setups, t, done, fixture)
      modifies mock
      ensures Breaks(p) ==> o == Fail(TargetInvocation(NotSupported)) && mock.setups == old(mock.setups)
      ensures !Breaks(p) ==>
        && o == Pass
        && LazilyRegistered(before, mock.setups, t, done + [p], fixture)
        && setup != null && fresh(setup)
        && mock.setups == old(mock.setups) + [setup]
      ensures mock.setupLog == old(mock.setupLog) && mock.propertyValues == old(mock.propertyValues)
    {
      ghost var prior := mock.setups;
      var lambda := MakePropertyAccessLambda(t, p);
      var registered := MockEx.Setup(mock, p.propertyType, lambda);
      if registered.Err? {
        return Fail(registered.error), null;
      }
      setup := registered.value;
      MockEx.ReturnsUsingFixture(registered.value, fixture);
      AccessesSnoc(before, prior, t, done, p, registered.value);
      forall j | |before| <= j < |prior| + 1
        ensures (prior + [registered.value])[j].response == ReturnsLazily(fixture)
      {
        if j < |prior| {
          assert (prior + [registered.value])[j] == prior[j] && prior[j] != registered.value;
        }
      }
      o := Pass;
    }
  }

  /**
   * An argument-less call of the j-th registered property's getter is answered by its own
   * setup, which resolves the property's type from the captured fixture when first read.
   */
  lemma {:induction false} LazilyAnsweredRead(before: seq<CallSetup>, after: seq<CallSetup>, t: TypeDescriptor,
                                              props: seq<PropertyDescriptor>, fixture: SpecimenContext,
                                              j: nat, inv: Invocation)
    requires LazilyRegistered(before, after, t, props, fixture)
    requires j < |props| && props[j].getMethod == Some(inv.callee) && inv.arguments == []
    requires forall i :: j < i < |props| ==> props[i].getMethod != props[j].getMethod
    ensures LastMatch(after, inv) == Some(|before| + j)
    ensures after[|before| + j].response == ReturnsLazily(fixture)
    ensures after[|before| + j].resultType == props[j].propertyType
  {
    var k := |before| + j;
    assert after[k].expression == MakePropertyAccessLambda(t, props[j]);
    forall i | k < i < |after|
      ensures !Matches(after[i].expression, inv)
    {
      assert after[i].expression == MakePropertyAccessLambda(t, props[i - |before|]);
    }
    assert Matches(after[k].expression, inv);
  }

  /** The unit tests' interfaces: one with a get-only string property, one with a set-only one. */
  const SomePropertyGetter := MethodDescriptor("get_SomeProperty", true, false, false, Returns("String"), [])
  const SomeProperty := PropertyDescriptor("SomeProperty", "String", true, false, Some(SomePropertyGetter), None)
  const InterfaceWithProperty := TypeDescriptor("IInterfaceWithProperty", [SomePropertyGetter], [SomeProperty])
  const SetPropertySetter :=
    MethodDescriptor("set_SetProperty", true, false, false, Void, [ParameterDescriptor("value", "String", false, false)])
  const SetProperty := PropertyDescriptor("SetProperty", "String", false, true, None, Some(SetPropertySetter))
  const InterfaceWithSetProperty := TypeDescriptor("IInterfaceWithSetProperty", [SetPropertySetter], [SetProperty])

  lemma {:induction false} SingleProperty(p: PropertyDescriptor)
    ensures Where([p], IsSetUpByFixture) == if p.canRead then [p] else []
  {
    WhereSnoc([], p, IsSetUpByFixture);
    assert [] + [p] == [p];
  }

  /** Setup on a fresh mock of the interface with a readable property. */
  method SetUpReadableProperty(fixture: SpecimenContext) returns (r: Outcome, mock: Mock)
    ensures fresh(mock) && r == Pass && fixture.requests == old(fixture.requests)
    ensures |mock.setups| == 1 && fresh(mock.setups[0])
    ensures LastMatch(mock.setups, Invocation(SomePropertyGetter, [])) == Some(0)
    ensures mock.setups[0].response == ReturnsLazily(fixture) && mock.setups[0].resultType == "String"
  {
    SingleProperty(SomeProperty);
    assert PropertiesSetUpByFixture(InterfaceWithProperty) == [SomeProperty];
    assert FirstIndex([SomeProperty], Breaks) == 1;
    assert [SomeProperty][..1] == [SomeProperty];
    var initializer := new MockPropertyInitializer(fixture);
    mock := new Mock([InterfaceWithProperty]);
    r := initializer.Setup(mock);
    assert LazilyRegistered([], mock.setups, InterfaceWithProperty, [SomeProperty], fixture);
    LazilyAnsweredRead([], mock.setups, InterfaceWithProperty, [SomeProperty], fixture, 0, Invocation(SomePropertyGetter, []));
  }

  /**
   * Reading the interface's property returns the value the captured fixture makes at the
   * first read: no request during Setup, one at the first read, none at the second, which
   * returns the same value.
   */
  method ReadablePropertyScenario(oracle: (TypeName, nat) -> Value)
    returns (r: Outcome, atSetup: nat, first: Reply, afterFirst: nat, second: Reply, afterSecond: nat)
    ensures r == Pass && atSetup == 0 && afterFirst == 1 && afterSecond == 1
    ensures first == Returned(oracle("String", 0)) && second == first
  {
    var fixture := new SpecimenContext(oracle);
    var mock;
    r, mock := SetUpReadableProperty(fixture);
    atSetup := |fixture.requests|;
    var read := Invocation(SomePropertyGetter, []);
    assert mock.InvokeFrame(read) == {mock.setups[0], fixture};
    first := mock.Invoke(read);
    afterFirst := |fixture.requests|;
    assert mock.InvokeFrame(read) == {mock.setups[0]};
    second := mock.Invoke(read);
    afterSecond := |fixture.requests|;
  }

  /** A set-only property is skipped: Setup succeeds, registers nothing and makes no request. */
  method SetOnlyPropertyScenario(oracle: (TypeName, nat) -> Value) returns (r: Outcome, registered: nat, requests: nat)
    ensures r == Pass && registered == 0 && requests == 0
  {
    SingleProperty(SetProperty);
    var fixture := new SpecimenContext(oracle);
    var initializer := new MockPropertyInitializer(fixture);
    var mock := new Mock([InterfaceWithSetProperty]);
    r := initializer.Setup(mock);
    registered := |mock.setups|;
    requests := |fixture.requests|;
  }
}
