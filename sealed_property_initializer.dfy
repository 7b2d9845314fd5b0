/**
 * SealedPropertyInitializer (src/AutoMoq.Boost/Initializers/SealedPropertyInitializer.cs):
 * Moq cannot intercept a property whose setter is sealed, so every writable property with
 * a sealed setter is given a value resolved from the context, once, when Setup runs.
 */
module SealedPropertyInitialization {
  import opened Wrappers
  import opened Reflection
  import opened Kernel
  import opened Moq
  import opened Linq
  import MethodBaseExtensions
  import MockEx

  /**
   * A writable property whose public setter is sealed. This total form is the filter the
   * initializer evidently intends; as written it is evaluated through Filter below.
   */
  predicate IsSelected(p: PropertyDescriptor) {
    p.canWrite && p.setMethod.Some? && MethodBaseExtensions.IsSealed(p.setMethod.value)
  }

  /** CanWrite holds but GetSetMethod() yields null: the setter exists and is not public. */
  predicate Throws(p: PropertyDescriptor) {
    p.canWrite && p.setMethod.None?
  }

  /**
   * The filter as written, `p.CanWrite && p.GetSetMethod().IsSealed()`: the extension
   * method receives null for a non-public setter and throws NullReferenceException.
   */
  function Filter(p: PropertyDescriptor): (r: Result<bool>)
    ensures r.Err? <==> Throws(p)
    ensures r.Err? ==> r.error == NullReference
    ensures r == Ok(true) <==> IsSelected(p)
  {
    if !p.canWrite then Ok(false)
    else if p.setMethod.None? then Err(NullReference)
    else Ok(MethodBaseExtensions.IsSealed(p.setMethod.value))
  }

  /**
   * The property values after assigning each property of `selected` in turn, the i-th
   * receiving the oracle's answer to the (n + i)-th request.
   */
  function Assigned(values: map<string, Value>, selected: seq<PropertyDescriptor>,
                    oracle: (TypeName, nat) -> Value, n: nat): map<string, Value>
  {
    if selected == [] then values
    else
      var init, last := selected[..|selected| - 1], selected[|selected| - 1];
      Assigned(values, init, oracle, n)[last.name := oracle(last.propertyType, n + |init|)]
  }

  lemma AssignedSnoc(values: map<string, Value>, selected: seq<PropertyDescriptor>, p: PropertyDescriptor,
                     oracle: (TypeName, nat) -> Value, n: nat)
    ensures Assigned(values, selected + [p], oracle, n)
      == Assigned(values, selected, oracle, n)[p.name := oracle(p.propertyType, n + |selected|)]
  {
    assert (selected + [p])[..|selected|] == selected;
  }

  /** No two properties of the sequence share a name, as no two properties of a type do. */
  predicate DistinctNames(props: seq<PropertyDescriptor>) {
    forall i, j :: 0 <= i < j < |props| ==> props[i].name != props[j].name
  }

  /** What Setup has done so far: how it ended, the requests made, the property values. */
  datatype Effect = Effect(outcome: Outcome, requests: seq<TypeName>, values: map<string, Value>)

  /** One iteration: the filter, then, for a selected property, one request and one assignment. */
  function Step(p: PropertyDescriptor, oracle: (TypeName, nat) -> Value, e: Effect): Effect {
    match Filter(p)
    case Err(error) => e.(outcome := Fail(error))
    case Ok(selected) =>
      if selected then
        e.(requests := e.requests + [p.propertyType],
           values := e.values[p.name := oracle(p.propertyType, |e.requests|)])
      else e
  }

  /** The loop over the properties in order, stopping at the first failure. */
  function Run(props: seq<PropertyDescriptor>, oracle: (TypeName, nat) -> Value, e: Effect): Effect {
    if props == [] then e
    else
      var prior := Run(props[..|props| - 1], oracle, e);
      if prior.outcome.Fail? then prior else Step(props[|props| - 1], oracle, prior)
  }

  lemma RunSnoc(props: seq<PropertyDescriptor>, p: PropertyDescriptor, oracle: (TypeName, nat) -> Value, e: Effect)
    ensures Run(props + [p], oracle, e)
      == var prior := Run(props, oracle, e); if prior.outcome.Fail? then prior else Step(p, oracle, prior)
  {
    assert (props + [p])[..|props|] == props;
  }

  /** Once the loop has failed, the remaining properties change nothing. */
  lemma {:induction false} FailureIsFinal(props: seq<PropertyDescriptor>, i: nat, oracle: (TypeName, nat) -> Value, e: Effect)
    requires i <= |props| && Run(props[..i], oracle, e).outcome.Fail?
    ensures Run(props, oracle, e) == Run(props[..i], oracle, e)
    decreases |props|
  {
    if i < |props| {
      var init := props[..|props| - 1];
      assert init[..i] == props[..i];
      FailureIsFinal(init, i, oracle, e);
      RunSnoc(init, props[|props| - 1], oracle, e);
      assert props == init + [props[|props| - 1]];
    } else {
      assert props[..i] == props;
    }
  }

  /** Setup's effect in closed form, given the failing position and the selected properties. */
  function Expected(props: seq<PropertyDescriptor>, oracle: (TypeName, nat) -> Value,
                    requests: seq<TypeName>, values: map<string, Value>): Effect
  {
    var k := FirstIndex(props, Throws);
    var selected := Where(props[..k], IsSelected);
    Effect(if k == |props| then Pass else Fail(NullReference),
           requests + Select(selected, PropertyTypeOf),
           Assigned(values, selected, oracle, |requests|))
  }

  /** A property after the first failing one changes neither the failing position nor the selection. */
  lemma AfterFailureUnchanged(init: seq<PropertyDescriptor>, last: PropertyDescriptor, oracle: (TypeName, nat) -> Value,
                              requests: seq<TypeName>, values: map<string, Value>)
    requires FirstIndex(init, Throws) < |init|
    ensures Expected(init + [last], oracle, requests, values) == Expected(init, oracle, requests, values)
  {
    var k := FirstIndex(init, Throws);
    FirstIndexAppend(init, [last], Throws);
    assert (init + [last])[..k] == init[..k];
    ExpectedFailing(init, k, oracle, requests, values);
    ExpectedFailing(init + [last], k, oracle, requests, values);
  }

  /** Setup's effect once a failing property has been met at position k. */
  lemma ExpectedFailing(props: seq<PropertyDescriptor>, k: nat, oracle: (TypeName, nat) -> Value,
                        requests: seq<TypeName>, values: map<string, Value>)
    requires k == FirstIndex(props, Throws) < |props|
    ensures Expected(props, oracle, requests, values)
      == Effect(Fail(NullReference), requests + Select(Where(props[..k], IsSelected), PropertyTypeOf),
                Assigned(values, Where(props[..k], IsSelected), oracle, |requests|))
  {
  }

  /** The first failing property ends the loop, keeping what came before it. */
  lemma FailingLastStops(init: seq<PropertyDescriptor>, last: PropertyDescriptor, oracle: (TypeName, nat) -> Value,
                         requests: seq<TypeName>, values: map<string, Value>)
    requires FirstIndex(init, Throws) == |init| && Throws(last)
    ensures Expected(init + [last], oracle, requests, values)
      == Step(last, oracle, Expected(init, oracle, requests, values))
  {
    FirstIndexAppend(init, [last], Throws);
    assert (init + [last])[..|init|] == init;
    assert init[..|init|] == init;
  }

  /** A property the filter passes over changes nothing. */
  lemma SkippedLastChangesNothing(init: seq<PropertyDescriptor>, last: PropertyDescriptor, oracle: (TypeName, nat) -> Value,
                                  requests: seq<TypeName>, values: map<string, Value>)
    requires FirstIndex(init, Throws) == |init| && !Throws(last) && !IsSelected(last)
    ensures Expected(init + [last], oracle, requests, values)
      == Step(last, oracle, Expected(init, oracle, requests, values))
  {
    FirstIndexAppend(init, [last], Throws);
    assert FirstIndex(init + [last], Throws) == |init + [last]|;
    ExpectedWithoutFailure(init, oracle, requests, values);
    ExpectedWithoutFailure(init + [last], oracle, requests, values);
    WhereSnoc(init, last, IsSelected);
    assert Where(init + [last], IsSelected) == Where(init, IsSelected);
    assert Filter(last) == Ok(false);
  }

  lemma StepSelected(p: PropertyDescriptor, oracle: (TypeName, nat) -> Value, e: Effect)
    requires IsSelected(p)
    ensures Step(p, oracle, e)
      == Effect(e.outcome, e.requests + [p.propertyType], e.values[p.name := oracle(p.propertyType, |e.requests|)])
  {
    assert Filter(p) == Ok(true);
  }

  /** Without a failing property, Setup assigns every selected property and succeeds. */
  lemma ExpectedWithoutFailure(props: seq<PropertyDescriptor>, oracle: (TypeName, nat) -> Value,
                               requests: seq<TypeName>, values: map<string, Value>)
    requires FirstIndex(props, Throws) == |props|
    ensures Expected(props, oracle, requests, values)
      == Effect(Pass, requests + Select(Where(props, IsSelected), PropertyTypeOf),
                Assigned(values, Where(props, IsSelected), oracle, |requests|))
  {
    assert props[..|props|] == props;
  }

  /** A selected property is resolved next and assigned the value. */
  lemma SelectedLastAssigned(init: seq<PropertyDescriptor>, last: PropertyDescriptor, oracle: (TypeName, nat) -> Value,
                             requests: seq<TypeName>, values: map<string, Value>)
    requires FirstIndex(init, Throws) == |init| && IsSelected(last)
    ensures Expected(init + [last], oracle, requests, values)
      == Step(last, oracle, Expected(init, oracle, requests, values))
  {
    FirstIndexAppend(init, [last], Throws);
    ExpectedWithoutFailure(init, oracle, requests, values);
    ExpectedWithoutFailure(init + [last], oracle, requests, values);
    WhereSnoc(init, last, IsSelected);
    SelectedLastAssignedClosed(Where(init, IsSelected), last, oracle, requests, values);
  }

  /** One more selected property: one more request, for its type, and one more assignment. */
  lemma SelectedLastAssignedClosed(earlier: seq<PropertyDescriptor>, last: PropertyDescriptor, oracle: (TypeName, nat) -> Value,
                                   requests: seq<TypeName>, values: map<string, Value>)
    requires IsSelected(last)
    ensures Effect(Pass, requests + Select(earlier + [last], PropertyTypeOf), Assigned(values, earlier + [last], oracle, |requests|))
      == Step(last, oracle, Effect(Pass, requests + Select(earlier, PropertyTypeOf), Assigned(values, earlier, oracle, |requests|)))
  {
    var types := Select(earlier, PropertyTypeOf);
    SelectSnoc(earlier, last, PropertyTypeOf);
    AppendSnoc(requests, types, last.propertyType);
    AssignedSnoc(values, earlier, last, oracle, |requests|);
    StepExtends(last, oracle, Effect(Pass, requests + types, Assigned(values, earlier, oracle, |requests|)),
                requests + Select(earlier + [last], PropertyTypeOf), Assigned(values, earlier + [last], oracle, |requests|));
  }

  /** Step on a selected property, given the requests and values it ends with. */
  lemma StepExtends(p: PropertyDescriptor, oracle: (TypeName, nat) -> Value, prior: Effect,
                    requests: seq<TypeName>, values: map<string, Value>)
    requires IsSelected(p)
    requires requests == prior.requests + [p.propertyType]
    requires values == prior.values[p.name := oracle(p.propertyType, |prior.requests|)]
    ensures Step(p, oracle, prior) == Effect(prior.outcome, requests, values)
  {
    StepSelected(p, oracle, prior);
  }

  /**
   * The loop, in closed form: it fails iff some writable property has no public setter;
   * it resolves the types of, and assigns, exactly the selected properties before the
   * first such property, in order.
   */
  lemma {:induction false} RunAssignsSelectedPrefix(props: seq<PropertyDescriptor>, oracle: (TypeName, nat) -> Value,
                                                    requests: seq<TypeName>, values: map<string, Value>)
    ensures Run(props, oracle, Effect(Pass, requests, values)) == Expected(props, oracle, requests, values)
  {
    if props == [] {
      assert requests + [] == requests;
    } else {
      var init, last := props[..|props| - 1], props[|props| - 1];
      assert props == init + [last];
      RunAssignsSelectedPrefix(init, oracle, requests, values);
      RunSnoc(init, last, oracle, Effect(Pass, requests, values));
      if FirstIndex(init, Throws) < |init| {
        AfterFailureUnchanged(init, last, oracle, requests, values);
      } else if Throws(last) {
        FailingLastStops(init, last, oracle, requests, values);
      } else if IsSelected(last) {
        SelectedLastAssigned(init, last, oracle, requests, values);
      } else {
        SkippedLastChangesNothing(init, last, oracle, requests, values);
      }
    }
  }

  /**
   * How Setup ends: NullReference on the null a non-mock specimen is cast to, the error of
   * the mocked-type lookup, or NullReference from a writable property without a public setter.
   */
  function SetupOutcome(mock: Mock?): Outcome {
    if mock == null then Fail(NullReference)
    else match MockEx.GetMockedType(mock)
      case Err(e) => Fail(e)
      case Ok(t) => if FirstIndex(t.properties, Throws) == |t.properties| then Pass else Fail(NullReference)
  }

  class SealedPropertyInitializer {
    constructor ()
    {
    }

    /**
     * Walks the properties in the order reflection returns them, filtering lazily as Where does: a
     * selected property is resolved from the context and assigned on the spot; the first
     * writable property without a public setter throws, keeping the assignments made
     * before it. No setup is registered.
     */
    method Setup(mock: Mock?, context: SpecimenContext) returns (r: Outcome)
      modifies mock, context
      ensures r == SetupOutcome(mock)
      ensures mock == null ==> r == Fail(NullReference) && context.requests == old(context.requests)
      ensures mock != null ==> mock.setupLog == old(mock.setupLog) + [this] && mock.setups == old(mock.setups)
      ensures mock != null && MockEx.GetMockedType(mock).Err? ==>
        && r == Fail(InvalidOperation)
        && mock.propertyValues == old(mock.propertyValues)
        && context.requests == old(context.requests)
      ensures mock != null && MockEx.GetMockedType(mock).Ok? ==>
        var props := MockEx.GetMockedType(mock).value.properties;
        var k := FirstIndex(props, Throws);
        var selected := Where(props[..k], IsSelected);
        && r == (if k == |props| then Pass else Fail(NullReference))
        && context.requests == old(context.requests) + Select(selected, PropertyTypeOf)
        && mock.propertyValues == Assigned(old(mock.propertyValues), selected, context.oracle, |old(context.requests)|)
    {
      if mock == null {
        return Fail(NullReference);
      }
      mock.setupLog := mock.setupLog + [this];
      var mockedType := MockEx.GetMockedType(mock);
      if mockedType.Err? {
        return Fail(InvalidOperation);
      }
      RunAssignsSelectedPrefix(mockedType.value.properties, context.oracle, context.requests, mock.propertyValues);
      r := AssignSelected(mock, context, mockedType.value.properties);
    }

    /** The loop of Setup over the mocked type's properties. */
    method AssignSelected(mock: Mock, context: SpecimenContext, props: seq<PropertyDescriptor>) returns (r: Outcome)
      modifies mock, context
      ensures mock.setups == old(mock.setups) && mock.setupLog == old(mock.setupLog)
      ensures Effect(r, context.requests, mock.propertyValues)
        == Run(props, context.oracle, Effect(Pass, old(context.requests), old(mock.propertyValues)))
    {
      ghost var e0 := Effect(Pass, context.requests, mock.propertyValues);
      var i := 0;
      while i < |props|
        invariant 0 <= i <= |props|
        invariant Run(props[..i], context.oracle, e0) == Effect(Pass, context.requests, mock.propertyValues)
        invariant mock.setups == old(mock.setups) && mock.setupLog == old(mock.setupLog)
      {
        var p := props[i];
        var selected := Filter(p);
        assert props[..i + 1] == props[..i] + [p];
        RunSnoc(props[..i], p, context.oracle, e0);
        if selected.Err? {
          FailureIsFinal(props, i + 1, context.oracle, e0);
          return Fail(NullReference);
        }
        if selected.value {
          var v := context.Resolve(p.propertyType);
          mock.SetPropertyValue(p.name, v);
        }
        i := i + 1;
      }
      assert props[..i] == props;
      r := Pass;
    }
  }

  /**
   * After Setup, a selected property holds the value the context produced for its type at
   * its turn: the number of selected properties before it, counted from the first request.
   */
  lemma SelectedHoldsResolvedValue(values: map<string, Value>, props: seq<PropertyDescriptor>,
                                   oracle: (TypeName, nat) -> Value, n: nat, i: nat)
    requires i < |props| && IsSelected(props[i]) && DistinctNames(props)
    ensures var after := Assigned(values, Where(props, IsSelected), oracle, n);
      && props[i].name in after
      && after[props[i].name] == oracle(props[i].propertyType, n + |Where(props[..i], IsSelected)|)
  {
    var p, earlier, later := props[i], props[..i], props[i + 1..];
    assert props == earlier + [p] + later;
    WhereAppend(earlier + [p], later, IsSelected);
    WhereSnoc(earlier, p, IsSelected);
    var selected, j := Where(props, IsSelected), |Where(earlier, IsSelected)|;
    assert selected == Where(earlier, IsSelected) + [p] + Where(later, IsSelected);
    assert selected[j] == p;
    forall k | j < k < |selected|
      ensures selected[k].name != p.name
    {
      assert selected[k] == Where(later, IsSelected)[k - j - 1];
      NameOfLaterSelected(props, i, k - j - 1);
    }
    AssignedValueAt(values, selected, oracle, n, j);
    assert Assigned(values, selected, oracle, n)[p.name] == oracle(p.propertyType, n + j);
  }

  /** A property selected after position i carries a name other than that of the property at i. */
  lemma NameOfLaterSelected(props: seq<PropertyDescriptor>, i: nat, k: nat)
    requires i < |props| && DistinctNames(props) && k < |Where(props[i + 1..], IsSelected)|
    ensures Where(props[i + 1..], IsSelected)[k].name != props[i].name
  {
    var later := props[i + 1..];
    WhereMember(later, IsSelected, k);
    var m :| 0 <= m < |later| && later[m] == Where(later, IsSelected)[k];
    assert props[i + 1 + m] == later[m];
  }

  /** Every element Where keeps is an element of its input. */
  lemma WhereMember<T(!new)>(xs: seq<T>, p: T -> bool, k: nat)
    requires k < |Where(xs, p)|
    ensures exists m :: 0 <= m < |xs| && xs[m] == Where(xs, p)[k]
  {
    var x := Where(xs, p)[k];
    WhereCounts(xs, p);
    assert x in multiset(Where(xs, p));
    assert x in multiset(xs);
    assert x in xs;
  }

  /** The value under the name of the j-th assigned property, when no later one reuses the name. */
  lemma {:induction false} AssignedValueAt(values: map<string, Value>, selected: seq<PropertyDescriptor>,
                                           oracle: (TypeName, nat) -> Value, n: nat, j: nat)
    requires j < |selected|
    requires forall k :: j < k < |selected| ==> selected[k].name != selected[j].name
    ensures selected[j].name in Assigned(values, selected, oracle, n)
    ensures Assigned(values, selected, oracle, n)[selected[j].name] == oracle(selected[j].propertyType, n + j)
  {
    var init := selected[..|selected| - 1];
    if j < |selected| - 1 {
      forall k | j < k < |init|
        ensures init[k].name != init[j].name
      {
        assert init[k] == selected[k];
      }
      AssignedValueAt(values, init, oracle, n, j);
      assert selected[|selected| - 1].name != selected[j].name;
    }
  }

  /** A name that no selected property carries keeps its value, or its absence. */
  lemma {:induction false} UnassignedNameUnchanged(values: map<string, Value>, props: seq<PropertyDescriptor>,
                                                   oracle: (TypeName, nat) -> Value, n: nat, name: string)
    requires forall j :: 0 <= j < |props| && IsSelected(props[j]) ==> props[j].name != name
    ensures var after := Assigned(values, Where(props, IsSelected), oracle, n);
      && (name in after <==> name in values)
      && (name in values ==> after[name] == values[name])
  {
    if props != [] {
      var init, last := props[..|props| - 1], props[|props| - 1];
      assert props == init + [last];
      WhereSnoc(init, last, IsSelected);
      assert forall j :: 0 <= j < |init| ==> init[j] == props[j];
      UnassignedNameUnchanged(values, init, oracle, n, name);
      var before := Assigned(values, Where(init, IsSelected), oracle, n);
      if IsSelected(last) {
        assert last.name != name by {
          assert props[|props| - 1] == last;
        }
        AssignedSnoc(values, Where(init, IsSelected), last, oracle, n);
        assert Assigned(values, Where(props, IsSelected), oracle, n)
          == before[last.name := oracle(last.propertyType, n + |Where(init, IsSelected)|)];
      } else {
        assert Where(props, IsSelected) == Where(init, IsSelected);
      }
    }
  }

  /**
   * Read-only properties, properties with an overridable setter, and every other property
   * the filter passes over keep their values.
   */
  lemma UnselectedPropertyUnchanged(values: map<string, Value>, props: seq<PropertyDescriptor>,
                                    oracle: (TypeName, nat) -> Value, n: nat, i: nat)
    requires i < |props| && !IsSelected(props[i]) && DistinctNames(props)
    ensures var after := Assigned(values, Where(props, IsSelected), oracle, n);
      && (props[i].name in after <==> props[i].name in values)
      && (props[i].name in values ==> after[props[i].name] == values[props[i].name])
  {
    UnassignedNameUnchanged(values, props, oracle, n, props[i].name);
  }

  /** Over a context where the property's type is frozen, it holds the frozen value. */
  lemma FrozenTypeGivesFrozenValue(values: map<string, Value>, props: seq<PropertyDescriptor>,
                                   context: SpecimenContext, n: nat, i: nat)
    requires i < |props| && IsSelected(props[i]) && DistinctNames(props)
    requires context.Frozen(props[i].propertyType)
    ensures var after := Assigned(values, Where(props, IsSelected), context.oracle, n);
      props[i].name in after && after[props[i].name] == context.oracle(props[i].propertyType, 0)
  {
    SelectedHoldsResolvedValue(values, props, context.oracle, n, i);
  }

  /** The unit tests' classes, with a string property each; `string` is frozen in the tests. */
  const SetterParameters := [ParameterDescriptor("value", "String", false, false)]
  const SealedGetter := MethodDescriptor("get_SealedProperty", true, true, false, Returns("String"), [])
  const SealedSetter := MethodDescriptor("set_SealedProperty", true, true, false, Void, SetterParameters)
  const PlainGetter := MethodDescriptor("get_ImplicitlySealedProperty", false, false, false, Returns("String"), [])
  const PlainSetter := MethodDescriptor("set_ImplicitlySealedProperty", false, false, false, Void, SetterParameters)
  const VirtualGetter := MethodDescriptor("get_VirtualProperty", true, false, false, Returns("String"), [])
  const VirtualSetter := MethodDescriptor("set_VirtualProperty", true, false, false, Void, SetterParameters)
  const ReadOnlyGetter := MethodDescriptor("get_ReadOnlyProperty", false, false, false, Returns("String"), [])
  const SealedProperty := PropertyDescriptor("SealedProperty", "String", true, true, Some(SealedGetter), Some(SealedSetter))
  const ImplicitlySealedProperty :=
    PropertyDescriptor("ImplicitlySealedProperty", "String", true, true, Some(PlainGetter), Some(PlainSetter))
  const VirtualProperty := PropertyDescriptor("VirtualProperty", "String", true, true, Some(VirtualGetter), Some(VirtualSetter))
  const ReadOnlyProperty := PropertyDescriptor("ReadOnlyProperty", "String", true, false, Some(ReadOnlyGetter), None)
  const Mixed := TypeDescriptor("ClassWithProperties",
    [SealedGetter, SealedSetter, PlainGetter, PlainSetter, VirtualGetter, VirtualSetter, ReadOnlyGetter],
    [SealedProperty, ImplicitlySealedProperty, VirtualProperty, ReadOnlyProperty])

  /** Only the two sealed-setter properties of the class are selected. */
  lemma {:induction false} MixedSelection()
    ensures FirstIndex(Mixed.properties, Throws) == |Mixed.properties|
    ensures Where(Mixed.properties, IsSelected) == [SealedProperty, ImplicitlySealedProperty]
  {
    var s1, s2, s3 := [SealedProperty], [SealedProperty, ImplicitlySealedProperty],
      [SealedProperty, ImplicitlySealedProperty, VirtualProperty];
    WhereSnoc([], SealedProperty, IsSelected);
    assert [] + [SealedProperty] == s1;
    WhereSnoc(s1, ImplicitlySealedProperty, IsSelected);
    assert s1 + [ImplicitlySealedProperty] == s2;
    WhereSnoc(s2, VirtualProperty, IsSelected);
    assert s2 + [VirtualProperty] == s3;
    WhereSnoc(s3, ReadOnlyProperty, IsSelected);
    assert s3 + [ReadOnlyProperty] == Mixed.properties;
  }

  /**
   * The unit tests' scenario over a frozen string: both sealed properties receive it, the
   * virtual and read-only ones are untouched, and a second Setup resolves both again.
   */
  method SealedPropertiesScenario(frozen: Value)
    returns (r: Outcome, sealedValue: Value, implicitValue: Value, virtualSet: bool, readOnlySet: bool,
             afterFirst: nat, afterSecond: nat)
    ensures r == Pass
    ensures sealedValue == frozen && implicitValue == frozen
    ensures !virtualSet && !readOnlySet
    ensures afterFirst == 2 && afterSecond == 4
  {
    MixedSelection();
    var context := new SpecimenContext((t: TypeName, n: nat) => if t == "String" then frozen else Value(n));
    var mock := new Mock([Mixed]);
    var initializer := new SealedPropertyInitializer();
    assert Mixed.properties[..|Mixed.properties|] == Mixed.properties;
    AssignedSnoc(map[], [], SealedProperty, context.oracle, 0);
    AssignedSnoc(map[], [SealedProperty], ImplicitlySealedProperty, context.oracle, 0);
    assert [] + [SealedProperty] == [SealedProperty];
    assert [SealedProperty] + [ImplicitlySealedProperty] == [SealedProperty, ImplicitlySealedProperty];
    r := initializer.Setup(mock, context);
    assert mock.propertyValues == map[SealedProperty.name := frozen, ImplicitlySealedProperty.name := frozen];
    afterFirst := |context.requests|;
    sealedValue := mock.propertyValues[SealedProperty.name];
    implicitValue := mock.propertyValues[ImplicitlySealedProperty.name];
    virtualSet := VirtualProperty.name in mock.propertyValues;
    readOnlySet := ReadOnlyProperty.name in mock.propertyValues;
    var again := initializer.Setup(mock, context);
    afterSecond := |context.requests|;
  }

  /**
   * As written, a writable property whose setter is not public makes the filter throw, so
   * Setup fails on such a class and assigns nothing.
   */
  method PrivateSetterScenario(oracle: (TypeName, nat) -> Value) returns (r: Outcome, resolved: nat)
    ensures r == Fail(NullReference) && resolved == 0
  {
    var getter := MethodDescriptor("get_Name", false, false, false, Returns("String"), []);
    var p := PropertyDescriptor("Name", "String", true, true, Some(getter), None);
    var t := TypeDescriptor("ClassWithPrivateSetter", [getter], [p]);
    assert FirstIndex(t.properties, Throws) == 0;
    var context := new SpecimenContext(oracle);
    var mock := new Mock([t]);
    var initializer := new SealedPropertyInitializer();
    r := initializer.Setup(mock, context);
    resolved := |context.requests|;
  }

  /**
   * The corrected filter never throws, and it skips exactly the properties on which the
   * filter as written throws or answers false.
   */
  lemma CorrectedFilterIsTotal(p: PropertyDescriptor)
    ensures IsSelected(p) ==> Filter(p) == Ok(true)
    ensures !IsSelected(p) <==> Filter(p) == Ok(false) || Throws(p)
  {
  }
}
