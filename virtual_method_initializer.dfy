/**
 * VirtualMethodInitializer (src/AutoMoq.Boost/Initializers/VirtualMethodInitializer.cs):
 * every non-generic, overridable, non-void method of the mocked type (interface methods,
 * virtual class methods, property getters) gets one setup that matches any arguments and
 * answers lazily from the value context.
 */
module VirtualMethodInitialization {
  import opened Wrappers
  import opened Reflection
  import opened Expressions
  import opened Kernel
  import opened Moq
  import opened Linq
  import MethodInfoExtensions
  import MockEx

  /** The filter of Setup, as written: non-generic, virtual and not final, not void. */
  predicate IsSetUp(m: MethodDescriptor) {
    !m.isGenericMethod && m.isVirtual && !m.isFinal && m.returnType != Void
  }

  function SelectedMethods(t: TypeDescriptor): seq<MethodDescriptor> {
    Where(t.methods, IsSetUp)
  }

  /** A method of the mocked type is selected iff it is non-generic, overridable and not void. */
  lemma SelectedIffOverridableNonGenericNonVoid(t: TypeDescriptor, m: MethodDescriptor)
    requires m in t.methods
    ensures m in SelectedMethods(t) <==>
      !m.isGenericMethod && MethodInfoExtensions.IsOverridable(m) && !MethodInfoExtensions.IsVoid(m)
  {
    WhereCounts(t.methods, IsSetUp);
    assert m in SelectedMethods(t) <==> multiset(SelectedMethods(t))[m] > 0;
  }

  predicate IsByRefParameter(p: ParameterDescriptor) {
    p.isByRef
  }

  /** It.IsAny<T> cannot be instantiated at a by-ref type T&, so such a parameter breaks the pattern. */
  predicate HasByRefParameter(m: MethodDescriptor) {
    Any(m.parameters, IsByRefParameter)
  }

  function Wildcard(p: ParameterDescriptor): Matcher {
    IsAny(p.parameterType)
  }

  /**
   * `x => x.Method(It.IsAny<A1>(), ..., It.IsAny<An>())` on a parameter of the mocked type:
   * one wildcard per declared parameter, in order, typed by the parameter's type.
   * MakeGenericMethod throws on the first by-ref parameter type.
   */
  function MakeMethodInvocationLambda(mockedType: TypeDescriptor, m: MethodDescriptor): (r: Result<Lambda>)
    ensures r.Err? <==> exists i :: 0 <= i < |m.parameters| && m.parameters[i].isByRef
    ensures r.Err? ==> r.error == InvalidTypeArgument
    ensures r.Ok? ==>
      && OnOwnParameter(r.value)
      && r.value.parameter.parameterType == mockedType.name
      && Target(r.value) == Some(m)
      && r.value.body.MethodCall?
      && |r.value.body.arguments| == |m.parameters|
      && forall i :: 0 <= i < |m.parameters| ==> r.value.body.arguments[i] == IsAny(m.parameters[i].parameterType)
  {
    var x := ParameterExpression(mockedType.name, "x");
    if HasByRefParameter(m) then Err(InvalidTypeArgument)
    else Ok(Lambda(MethodCall(x, m, Select(m.parameters, Wildcard)), x))
  }

  /** The pattern matches exactly the well-typed calls of its method, whatever the argument values. */
  lemma PatternMatchesExactly(t: TypeDescriptor, m: MethodDescriptor, inv: Invocation)
    requires MakeMethodInvocationLambda(t, m).Ok?
    ensures Matches(MakeMethodInvocationLambda(t, m).value, inv) <==> inv.callee == m && WellTyped(inv)
  {
    var l := MakeMethodInvocationLambda(t, m).value;
    if Matches(l, inv) {
      assert inv.callee == m;
      forall i | 0 <= i < |inv.arguments|
        ensures inv.arguments[i].argumentType == inv.callee.parameters[i].parameterType
      {
        assert Accepts(l.body.arguments[i], inv.arguments[i]);
      }
    }
  }

  /**
   * The setups appended after `before` by an initializer's loop: one per method, in order,
   * each with that method's pattern and its return type as result type.
   */
  predicate PatternsRegistered(before: seq<CallSetup>, after: seq<CallSetup>, t: TypeDescriptor,
                               methods: seq<MethodDescriptor>)
  {
    && |after| == |before| + |methods|
    && after[..|before|] == before
    && forall j :: 0 <= j < |methods| ==>
         && MakeMethodInvocationLambda(t, methods[j]) == Ok(after[|before| + j].expression)
         && methods[j].returnType == Returns(after[|before| + j].resultType)
  }

  /** One more setup, with the next method's pattern and return type, keeps the patterns registered. */
  lemma PatternsSnoc(before: seq<CallSetup>, setups: seq<CallSetup>, t: TypeDescriptor, done: seq<MethodDescriptor>,
                     m: MethodDescriptor, s: CallSetup)
    requires PatternsRegistered(before, setups, t, done)
    requires MakeMethodInvocationLambda(t, m) == Ok(s.expression) && m.returnType == Returns(s.resultType)
    ensures PatternsRegistered(before, setups + [s], t, done + [m])
  {
    var after := setups + [s];
    assert after[..|before|] == setups[..|before|];
    forall j | 0 <= j < |done| + 1
      ensures MakeMethodInvocationLambda(t, (done + [m])[j]) == Ok(after[|before| + j].expression)
      ensures (done + [m])[j].returnType == Returns(after[|before| + j].resultType)
    {
      if j < |done| {
        assert after[|before| + j] == setups[|before| + j];
      }
    }
  }

  /** The setups registered by Setup, each answering lazily from `context`. */
  ghost predicate LazilyRegistered(before: seq<CallSetup>, after: seq<CallSetup>, t: TypeDescriptor,
                                   methods: seq<MethodDescriptor>, context: SpecimenContext)
    reads after
  {
    && PatternsRegistered(before, after, t, methods)
    && forall j :: |before| <= j < |after| ==> after[j].response == ReturnsLazily(context)
  }

  /**
   * How Setup ends: NullReference on the null a non-mock specimen is cast to, the error of
   * the mocked-type lookup, or InvalidTypeArgument when a selected method has a by-ref
   * parameter.
   */
  function SetupOutcome(mock: Mock?): Outcome {
    if mock == null then Fail(NullReference)
    else match MockEx.GetMockedType(mock)
      case Err(e) => Fail(e)
      case Ok(t) =>
        if FirstIndex(SelectedMethods(t), HasByRefParameter) == |SelectedMethods(t)| then Pass
        else Fail(InvalidTypeArgument)
  }

  class VirtualMethodInitializer {
    constructor ()
    {
    }

    /**
     * Registers the lazy setups. Nothing is resolved from the context. Setup stops at the
     * first selected method with a by-ref parameter, keeping the setups made before it.
     */
    method Setup(mock: Mock?, context: SpecimenContext) returns (r: Outcome)
      modifies mock
      ensures r == SetupOutcome(mock)
      ensures mock != null ==> mock.setupLog == old(mock.setupLog) + [this]
      ensures mock != null ==> mock.propertyValues == old(mock.propertyValues)
      ensures mock != null && MockEx.GetMockedType(mock).Err? ==> mock.setups == old(mock.setups)
      ensures mock != null && MockEx.GetMockedType(mock).Ok? ==>
        var t := MockEx.GetMockedType(mock).value;
        var methods := SelectedMethods(t);
        LazilyRegistered(old(mock.setups), mock.setups, t, methods[..FirstIndex(methods, HasByRefParameter)], context)
      ensures mock != null ==> forall j :: |old(mock.setups)| <= j < |mock.setups| ==> fresh(mock.setups[j])
      ensures context.requests == old(context.requests)
    {
      if mock == null {
        return Fail(NullReference);
      }
      mock.setupLog := mock.setupLog + [this];
      var mockedType := MockEx.GetMockedType(mock);
      if mockedType.Err? {
        return Fail(mockedType.error);
      }
      var t := mockedType.value;
      var methods := Where(t.methods, IsSetUp);
      r := RegisterSelected(mock, t, methods, context);
    }

    /** The loop of Setup over the selected methods, in order. */
    method RegisterSelected(mock: Mock, t: TypeDescriptor, methods: seq<MethodDescriptor>, context: SpecimenContext)
      returns (r: Outcome)
      requires forall j :: 0 <= j < |methods| ==> IsSetUp(methods[j])
      modifies mock
      ensures mock.setupLog == old(mock.setupLog) && mock.propertyValues == old(mock.propertyValues)
      ensures
        var k := FirstIndex(methods, HasByRefParameter);
        && r == (if k == |methods| then Pass else Fail(InvalidTypeArgument))
        && LazilyRegistered(old(mock.setups), mock.setups, t, methods[..k], context)
      ensures forall j :: |old(mock.setups)| <= j < |mock.setups| ==> fresh(mock.setups[j])
    {
      ghost var k := FirstIndex(methods, HasByRefParameter);
      ghost var before := mock.setups;
      var i := 0;
      while i < |methods|
        invariant i <= k
        invariant LazilyRegistered(before, mock.setups, t, methods[..i], context)
        invariant forall j :: |before| <= j < |mock.setups| ==> fresh(mock.setups[j])
        invariant mock.setupLog == old(mock.setupLog) && mock.propertyValues == old(mock.propertyValues)
      {
        var m := methods[i];
        var lambda := MakeMethodInvocationLambda(t, m);
        if lambda.Err? {
          assert i == k;
          return Fail(lambda.error);
        }
        assert i < k;
        PrefixSnoc(methods, i);
        var setup := RegisterLazily(mock, t, m, lambda.value, context, before, methods[..i]);
        i := i + 1;
      }
      assert methods[..k] == methods;
      r := Pass;
    }

    /** One iteration for a method without by-ref parameters: Moq's setup, then the lazy binding. */
    method RegisterLazily(mock: Mock, t: TypeDescriptor, m: MethodDescriptor, lambda: Lambda, context: SpecimenContext,
                          ghost before: seq<CallSetup>, ghost done: seq<MethodDescriptor>)
      returns (setup: CallSetup)
      requires IsSetUp(m) && MakeMethodInvocationLambda(t, m) == Ok(lambda)
      requires LazilyRegistered(before, mock.setups, t, done, context)
      modifies mock
      ensures LazilyRegistered(before, mock.setups, t, done + [m], context)
      ensures fresh(setup) && mock.setups == old(mock.setups) + [setup]
      ensures mock.setupLog == old(mock.setupLog) && mock.propertyValues == old(mock.propertyValues)
    {
      ghost var prior := mock.setups;
      var registered := MockEx.Setup(mock, m.returnType.typeName, lambda);
      setup := registered.value;
      MockEx.ReturnsUsingContext(setup, context);
      PatternsSnoc(before, prior, t, done, m, setup);
      forall j | |before| <= j < |prior| + 1
        ensures (prior + [setup])[j].response == ReturnsLazily(context)
      {
        if j < |prior| {
          assert (prior + [setup])[j] == prior[j] && prior[j] != setup;
        }
      }
    }
  }

  /**
   * A call of a method with no registered pattern (one the filter leaves out) matches none
   * of the registered setups, so it keeps its baseline behaviour.
   */
  lemma {:induction false} UnregisteredFallsThrough(before: seq<CallSetup>, after: seq<CallSetup>, t: TypeDescriptor,
                                                    methods: seq<MethodDescriptor>, inv: Invocation)
    requires PatternsRegistered(before, after, t, methods)
    requires LastMatch(before, inv).None?
    requires inv.callee !in methods
    ensures LastMatch(after, inv).None?
  {
    forall j | 0 <= j < |after|
      ensures !Matches(after[j].expression, inv)
    {
      if j < |before| {
        assert after[j] == before[j];
      } else {
        var m := methods[j - |before|];
        PatternMatchesExactly(t, m, inv);
      }
    }
  }

  /**
   * A well-typed call of the j-th registered method is answered by its own setup, the
   * last registered for that method.
   */
  lemma {:induction false} RegisteredAnswersCall(before: seq<CallSetup>, after: seq<CallSetup>, t: TypeDescriptor,
                                                 methods: seq<MethodDescriptor>, j: nat, inv: Invocation)
    requires PatternsRegistered(before, after, t, methods)
    requires j < |methods| && inv.callee == methods[j] && WellTyped(inv)
    requires forall i :: j < i < |methods| ==> methods[i] != methods[j]
    ensures LastMatch(after, inv) == Some(|before| + j)
    ensures methods[j].returnType == Returns(after[|before| + j].resultType)
  {
    var k := |before| + j;
    PatternMatchesExactly(t, methods[j], inv);
    forall i | k < i < |after|
      ensures !Matches(after[i].expression, inv)
    {
      PatternMatchesExactly(t, methods[i - |before|], inv);
    }
    assert Matches(after[k].expression, inv);
  }

  /**
   * Every by-ref parameter is either `out` or `ref`, so a method with neither kind builds its
   * pattern; and when every `out` parameter is by-ref, as C# declares them, a pattern fails
   * to build exactly for the methods that have one of the two.
   */
  lemma ByRefIffOutOrRef(m: MethodDescriptor)
    ensures !MethodInfoExtensions.HasOutParameters(m) && !MethodInfoExtensions.HasRefParameters(m) ==> !HasByRefParameter(m)
    ensures (forall i :: 0 <= i < |m.parameters| && m.parameters[i].isOut ==> m.parameters[i].isByRef) ==>
      (HasByRefParameter(m) <==> MethodInfoExtensions.HasOutParameters(m) || MethodInfoExtensions.HasRefParameters(m))
  {
  }

  /** The filter the initializer evidently needs: the one as written, minus out and ref methods. */
  predicate IsSupported(m: MethodDescriptor) {
    IsSetUp(m) && !MethodInfoExtensions.HasOutParameters(m) && !MethodInfoExtensions.HasRefParameters(m)
  }

  /** Under that filter every selected method builds its pattern and Moq accepts it. */
  lemma SupportedMethodsBuild(t: TypeDescriptor, m: MethodDescriptor)
    requires IsSupported(m)
    ensures MakeMethodInvocationLambda(t, m).Ok?
    ensures Interceptable(MakeMethodInvocationLambda(t, m).value)
  {
    ByRefIffOutOrRef(m);
  }

  /** The unit tests' interface: a string method, a generic one and a void one. */
  const SomeMethod := MethodDescriptor("SomeMethod", true, false, false, Returns("String"), [])
  const GenericMethod := MethodDescriptor("GenericMethod", true, false, true, Returns("String"), [])
  const VoidMethod := MethodDescriptor("VoidMethod", true, false, false, Void, [])
  const Interface := TypeDescriptor("IInterface", [SomeMethod, GenericMethod, VoidMethod], [])

  /** Of the interface's three methods only the string method is selected, and it has no by-ref parameter. */
  lemma {:induction false} InterfaceSelection()
    ensures SelectedMethods(Interface) == [SomeMethod]
    ensures FirstIndex(SelectedMethods(Interface), HasByRefParameter) == 1
  {
    var s1, s2 := [SomeMethod], [SomeMethod, GenericMethod];
    WhereSnoc([], SomeMethod, IsSetUp);
    assert [] + [SomeMethod] == s1;
    WhereSnoc(s1, GenericMethod, IsSetUp);
    assert s1 + [GenericMethod] == s2;
    WhereSnoc(s2, VoidMethod, IsSetUp);
    assert s2 + [VoidMethod] == Interface.methods;
  }

  /**
   * Once Setup has registered the interface's setups, a call of the string method is
   * answered by its lazy setup and calls of the other two match no setup.
   */
  lemma InterfaceDispatch(setups: seq<CallSetup>, context: SpecimenContext)
    requires LazilyRegistered([], setups, Interface, [SomeMethod], context)
    ensures LastMatch(setups, Invocation(SomeMethod, [])) == Some(0)
    ensures setups[0].response == ReturnsLazily(context) && setups[0].resultType == "String"
    ensures LastMatch(setups, Invocation(GenericMethod, [])).None?
    ensures LastMatch(setups, Invocation(VoidMethod, [])).None?
  {
    RegisteredAnswersCall([], setups, Interface, [SomeMethod], 0, Invocation(SomeMethod, []));
    UnregisteredFallsThrough([], setups, Interface, [SomeMethod], Invocation(GenericMethod, []));
    UnregisteredFallsThrough([], setups, Interface, [SomeMethod], Invocation(VoidMethod, []));
  }

  /**
   * The unit tests' scenario: the string method is answered from the context, lazily; the
   * generic and void methods are left alone.
   */
  method InterfaceScenario(oracle: (TypeName, nat) -> Value)
    returns (r: Outcome, atSetup: nat, fromMethod: Reply, fromGeneric: Reply, fromVoid: Reply, afterCalls: nat)
    ensures r == Pass && atSetup == 0
    ensures fromMethod == Returned(oracle("String", 0))
    ensures fromGeneric == Baseline && fromVoid == Baseline
    ensures afterCalls == 1
  {
    InterfaceSelection();
    var context := new SpecimenContext(oracle);
    var mock := new Mock([Interface]);
    var initializer := new VirtualMethodInitializer();
    r := initializer.Setup(mock, context);
    assert [SomeMethod][..1] == [SomeMethod];
    InterfaceDispatch(mock.setups, context);
    atSetup := |context.requests|;
    fromGeneric := mock.Invoke(Invocation(GenericMethod, []));
    fromVoid := mock.Invoke(Invocation(VoidMethod, []));
    fromMethod := mock.Invoke(Invocation(SomeMethod, []));
    afterCalls := |context.requests|;
  }

  /**
   * The unit tests' class with an `override sealed` method (virtual and final) and a
   * non-virtual one.
   */
  const SealedOverride := MethodDescriptor("SealedMethod", true, true, false, Returns("String"), [])
  const ImplicitlySealed := MethodDescriptor("ImplicitlySealedMethod", false, false, false, Returns("String"), [])
  const ClassWithSealedMethod := TypeDescriptor("ClassWithSealedMethod", [SealedOverride, ImplicitlySealed], [])

  lemma {:induction false} SealedClassSelection()
    ensures SelectedMethods(ClassWithSealedMethod) == []
  {
    WhereSnoc([], SealedOverride, IsSetUp);
    WhereSnoc([SealedOverride], ImplicitlySealed, IsSetUp);
    assert [SealedOverride] + [ImplicitlySealed] == ClassWithSealedMethod.methods;
  }

  /**
   * Both sealed methods are ignored: Setup succeeds, registers nothing, and both methods
   * keep their own bodies.
   */
  method SealedClassScenario(oracle: (TypeName, nat) -> Value)
    returns (r: Outcome, registered: nat, fromSealed: Reply, fromImplicit: Reply)
    ensures r == Pass && registered == 0
    ensures fromSealed == Baseline && fromImplicit == Baseline
  {
    SealedClassSelection();
    var context := new SpecimenContext(oracle);
    var mock := new Mock([ClassWithSealedMethod]);
    var initializer := new VirtualMethodInitializer();
    r := initializer.Setup(mock, context);
    registered := |mock.setups|;
    fromSealed := mock.Invoke(Invocation(SealedOverride, []));
    fromImplicit := mock.Invoke(Invocation(ImplicitlySealed, []));
  }

  /**
   * As written, an overridable non-void method with an `out` parameter is selected, and
   * building its pattern throws, so Setup fails on such an interface.
   */
  method OutParameterScenario(oracle: (TypeName, nat) -> Value) returns (r: Outcome, registered: nat)
    ensures r == Fail(InvalidTypeArgument) && registered == 0
  {
    var tryParse := MethodDescriptor("TryParse", true, false, false, Returns("Boolean"),
      [ParameterDescriptor("s", "String", false, false), ParameterDescriptor("n", "Int32", true, true)]);
    var t := TypeDescriptor("IParser", [tryParse], []);
    assert SelectedMethods(t) == [tryParse];
    assert HasByRefParameter(tryParse) by {
      assert tryParse.parameters[1].isByRef;
    }
    var context := new SpecimenContext(oracle);
    var mock := new Mock([t]);
    var initializer := new VirtualMethodInitializer();
    r := initializer.Setup(mock, context);
    registered := |mock.setups|;
  }
}
