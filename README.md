# AutoMoq.Boost auto-setup, modelled in Dafny

AutoMoq.Boost extends AutoFixture's Moq integration so that mocks come out already set up.
Every member Moq can intercept returns a value the fixture creates, and is resolved lazily on
its first call. A property Moq cannot intercept, because its setter is sealed, is assigned
once, at setup time. This project models that engine:

- **Member classification.** A member is overridable when it is virtual and not final; sealed
  is the negation. The module also reports void members and out / ref parameters
  (`MethodInfoExtensions`, `MethodBaseExtensions`).
- **`MockEx` and `MockExtensions`.** `MockEx` holds the mocked type of a mock, Moq's `Setup`
  invoked through reflection, and the lazy, memoising binding: the first call resolves once,
  then the setup is rebound to that value. `MockExtensions` holds a second, eager binding
  that resolves at setup time.
- **The four initializers**, each an imperative loop over the mocked type's members:
  - `VirtualMethodInitializer`: a lazy setup per overridable, non-generic, non-void method;
  - `SealedPropertyInitializer`: assigns the writable properties whose setter is sealed;
  - `MockMethodInitializer` and `MockPropertyInitializer`: the older initializers. They make
    lazy setups that answer from a fixture they capture.
- **`MockSetup`.** A specimen builder decorator. It passes `NoSpecimen` through and runs
  every initializer, in order, on the mock the inner builder produced.
- **`AutoMoqBoostCustomization`.** Adds one `MockSetup` to a fixture's customizations and the
  relay to its residue collectors.

Foreign libraries are small modules of their own:
- `Reflection`: type, method, parameter and property descriptors as data;
- `Expressions`: the `x => x.M(It.IsAny<A>()...)` and `x => x.P` patterns, and when a call
  matches one;
- `Moq`: a mock with its setup table. The latest matching setup answers a call; members that
  cannot be intercepted are refused;
- `Kernel`: the value context. It answers each request from an oracle of the requested type
  and of the number of earlier requests, and it logs every request;
- `Builders`: specimen builders;
- `Linq`: `Any`, `Where`, `Select`.

Each initializer's `Setup` is a method on a class. Its loop is proved against a specification:
- the prefix of selected members before the first one that makes the loop throw;
- the requests the loop makes, in order;
- the setups it registers, or the values it assigns.

Lemmas then state what a later call on the mock returns.

Where the code and its tests disagree, the model follows the code:
- `MockMethodInitializer` selects sealed methods, and Moq refuses to set them up. Its tests
  expect them to be ignored (finding 3).
- `Customize` installs only a `VirtualMethodInitializer`, while
  `test/AutoMoq.Boost.Tests.Unit/AutoMoqBoostCustomizationTests.cs` expects the older
  initializers. `CustomizeScenario` states what the code does.
- `MockSetup.Create` calls `Setup(mock)`, while the current initializers take
  `(mock, context)`. The model passes the `Create` context to the two initializers that take
  one (as `test/AutoMoq.Boost.Tests.Unit/MockSetupTests.cs` expects). It passes only the mock
  to the two that capture a fixture.
- The older initializers call a four-argument `ReturnsUsingFixture(fixture, mockedType,
  returnType)` that no file defines. The model reads it as `MockEx`'s binding:
  - the two files import only the `Dash.AutoMoq.Boost` namespace, where `MockEx` lives, and
    not `Dash.AutoMoq.Boost.Extensions`, where `MockExtensions` lives;
  - the name is `MockEx`'s;
  - the extra arguments have the shape of `MockEx`'s non-generic `ReturnsUsingContext`
    dispatcher (`src/AutoMoq.Boost/MockEx.cs:67-75`).

  The binding is therefore lazy: nothing is resolved at setup time, and the first call
  resolves once (`test/AutoMoq.Boost.Tests.Unit/MockExTests.cs:36-44`).
- `MockEx.Setup` invokes Moq's `Setup` through `MethodBase.Invoke`. A member Moq refuses
  therefore escapes as a `TargetInvocationException` wrapping the `NotSupportedException`.
- No initializer binds `out` parameters. A method with one is selected by the virtual-method
  filter and breaks it (finding 1).

## Model

| member | source | states |
|---|---|---|
| MethodInfoExtensions.IsOverridable | src/AutoMoq.Boost/Extensions/MethodInfoExtensions.cs:12-25 | virtual and not final (interface implementations and `override sealed` methods are virtual final) |
| MethodInfoExtensions.IsSealed | src/AutoMoq.Boost/Extensions/MethodInfoExtensions.cs:27-30 | the exact negation of IsOverridable |
| MethodInfoExtensions.IsVoid | src/AutoMoq.Boost/Extensions/MethodInfoExtensions.cs:32-35 | the return type is `void` |
| MethodInfoExtensions.HasOutParameters | src/AutoMoq.Boost/Extensions/MethodInfoExtensions.cs:37-41 | true iff some declared parameter is `out` |
| MethodInfoExtensions.HasRefParameters | src/AutoMoq.Boost/Extensions/MethodInfoExtensions.cs:43-48 | true iff some parameter is by-ref and not `out` (out parameters are by-ref too and are excluded) |
| MethodBaseExtensions.IsOverridable | src/AutoMoq.Boost/Extensions/MethodBaseExtensions.cs:12-25 | virtual and not final, for any method or accessor |
| MethodBaseExtensions.IsSealed | src/AutoMoq.Boost/Extensions/MethodBaseExtensions.cs:27-30 | the exact negation of IsOverridable |
| Linq.Any | src/AutoMoq.Boost/Extensions/MethodInfoExtensions.cs:39-40 | true iff some element satisfies the predicate |
| Linq.Where | src/AutoMoq.Boost/Initializers/VirtualMethodInitializer.cs:33-36 | keeps only elements satisfying the predicate, never more than there were |
| Linq.WhereAppend | src/AutoMoq.Boost/Initializers/VirtualMethodInitializer.cs:33-36 | filtering distributes over concatenation, so the order is kept |
| Linq.WhereCounts | src/AutoMoq.Boost/Initializers/VirtualMethodInitializer.cs:33-36 | each element occurs in the result exactly as often as in the input when it satisfies the predicate, and not at all otherwise |
| Linq.Select | src/AutoMoq.Boost/Initializers/VirtualMethodInitializer.cs:59-63 | same length, each position the image of the input at that position |
| Kernel.SpecimenContext.Resolve | src/AutoMoq.Boost/Initializers/SealedPropertyInitializer.cs:34 | one request logged; the value is the oracle's answer for that type at that request count |
| Moq.CallSetup.Respond | src/AutoMoq.Boost/MockEx.cs:81-86 | no response: baseline; constant: that value, no request; lazy: one request, returns the value and rebinds the setup to it |
| Moq.Mock.RegisterSetup | src/AutoMoq.Boost/MockEx.cs:56 | Moq's own Setup, which this line invokes: an interceptable target gets a fresh setup with no response appended; a missing or sealed target is refused with NotSupported, table unchanged |
| Moq.Mock.SetPropertyValue | src/AutoMoq.Boost/Initializers/SealedPropertyInitializer.cs:35 | the named property holds the value; setups unchanged |
| Moq.Mock.Invoke | test/AutoMoq.Boost.Tests.Unit/MockExTests.cs:29-44 | answered by the latest matching setup (baseline if none) as Respond states; setup table unchanged |
| MockEx.GetMockedType | src/AutoMoq.Boost/MockEx.cs:35-38 | the single type argument; InvalidOperation unless there is exactly one |
| MockEx.Setup | src/AutoMoq.Boost/MockEx.cs:47-57 | an interceptable expression gets a fresh setup of the member's type, with no response, appended to the table; otherwise Moq's NotSupported escapes wrapped in TargetInvocation and the table is unchanged; property values and log untouched |
| MockEx.ReturnsUsingContext | src/AutoMoq.Boost/MockEx.cs:77-87 | installs the lazy response over the context and resolves nothing |
| MockEx.ReturnsUsingFixture | src/AutoMoq.Boost/MockEx.cs:28-33 | the same lazy binding over the fixture's context; no request |
| MockEx.LazyBindingScenario | test/AutoMoq.Boost.Tests.Unit/MockExTests.cs:29-44 | no request at setup, exactly one at the first call, none at the second; both calls return the first value |
| MockExtensions.GetMockedType | src/AutoMoq.Boost/Extensions/MockExtensions.cs:15-18 | the same lookup as `MockEx.GetMockedType`, which it calls: the single type argument; InvalidOperation otherwise |
| MockExtensions.ReturnsFromFixtureAux | src/AutoMoq.Boost/Extensions/MockExtensions.cs:56-61 | one request now, for the setup's result type, and the setup answers that constant |
| MockExtensions.ReturnsFromFixture | src/AutoMoq.Boost/Extensions/MockExtensions.cs:47-54 | at the setup's own (mocked type, result type) it binds eagerly; at other types it fails with ArgumentMismatch and changes nothing |
| MockExtensions.EagerBindingScenario | src/AutoMoq.Boost/Extensions/MockExtensions.cs:56-61 | one request at setup, none at the calls; every call returns the pre-resolved value |
| VirtualMethodInitialization.SelectedIffOverridableNonGenericNonVoid | src/AutoMoq.Boost/Initializers/VirtualMethodInitializer.cs:33-36 | a method is selected iff it is non-generic, overridable and not void |
| VirtualMethodInitialization.MakeMethodInvocationLambda | src/AutoMoq.Boost/Initializers/VirtualMethodInitializer.cs:55-67 | fails iff some parameter is by-ref; otherwise a call of the method on the lambda's own parameter, typed as the mocked type, with one IsAny per parameter, in order |
| VirtualMethodInitialization.PatternMatchesExactly | src/AutoMoq.Boost/Initializers/VirtualMethodInitializer.cs:55-67 | the pattern matches a call iff it calls that method with arguments of the declared parameter types |
| VirtualMethodInitialization.VirtualMethodInitializer.Setup | src/AutoMoq.Boost/Initializers/VirtualMethodInitializer.cs:30-49 | null mock or wrong arity fails; otherwise the selected methods before the first with a by-ref parameter each get one lazy setup, in order, and the context is asked nothing |
| VirtualMethodInitialization.VirtualMethodInitializer.RegisterSelected | src/AutoMoq.Boost/Initializers/VirtualMethodInitializer.cs:38-48 | the loop stops with InvalidTypeArgument at the first method with a by-ref parameter, keeping the lazy setups made before it, one per method, in order |
| VirtualMethodInitialization.VirtualMethodInitializer.RegisterLazily | src/AutoMoq.Boost/Initializers/VirtualMethodInitializer.cs:40-47 | one iteration appends one fresh setup with the method's pattern and return type, answering lazily from the context |
| VirtualMethodInitialization.UnregisteredFallsThrough | src/AutoMoq.Boost/Initializers/VirtualMethodInitializer.cs:33-36 | a call of a method the filter left out matches no setup Setup added, so it keeps its baseline |
| VirtualMethodInitialization.RegisteredAnswersCall | src/AutoMoq.Boost/Initializers/VirtualMethodInitializer.cs:38-48 | a well-typed call of a set-up method is answered by its own setup, which returns the method's return type |
| VirtualMethodInitialization.ByRefIffOutOrRef | src/AutoMoq.Boost/Extensions/MethodInfoExtensions.cs:37-48 | a method with neither out nor ref parameters has no by-ref parameter, and with C#'s out parameters the two notions coincide |
| VirtualMethodInitialization.SupportedMethodsBuild | src/AutoMoq.Boost/Initializers/VirtualMethodInitializer.cs:33-36 | under the corrected filter every selected method builds its pattern and Moq accepts it |
| VirtualMethodInitialization.InterfaceSelection | test/AutoMoq.Boost.Tests.Unit/Initializers/VirtualMethodInitializerTests.cs:70-87 | of a string, a generic and a void method only the string method is selected, and it has no by-ref parameter |
| VirtualMethodInitialization.InterfaceDispatch | test/AutoMoq.Boost.Tests.Unit/Initializers/VirtualMethodInitializerTests.cs:19-30 | after Setup the string method is answered by its lazy setup; the generic and void methods match nothing |
| VirtualMethodInitialization.InterfaceScenario | test/AutoMoq.Boost.Tests.Unit/Initializers/VirtualMethodInitializerTests.cs:19-30 | no request at Setup; the string method returns the context's value, resolved at the call; the generic and void methods keep their baseline |
| VirtualMethodInitialization.SealedClassSelection | test/AutoMoq.Boost.Tests.Unit/Initializers/VirtualMethodInitializerTests.cs:118-134 | neither the `override sealed` method nor the non-virtual one is selected |
| VirtualMethodInitialization.SealedClassScenario | test/AutoMoq.Boost.Tests.Unit/Initializers/VirtualMethodInitializerTests.cs:60-68 | on the class with sealed methods Setup succeeds, registers nothing for its two declared methods, and both keep their own bodies |
| VirtualMethodInitialization.OutParameterScenario | src/AutoMoq.Boost/Initializers/VirtualMethodInitializer.cs:59-62 | as written, a virtual method with an `out` parameter makes Setup fail with nothing registered |
| SealedPropertyInitialization.Filter | src/AutoMoq.Boost/Initializers/SealedPropertyInitializer.cs:28-30 | the filter as written throws iff the property is writable without a public setter, and passes exactly the writable properties with a sealed public setter |
| SealedPropertyInitialization.FailureIsFinal | src/AutoMoq.Boost/Initializers/SealedPropertyInitializer.cs:32-36 | once the loop has thrown, the remaining properties change nothing |
| SealedPropertyInitialization.RunAssignsSelectedPrefix | src/AutoMoq.Boost/Initializers/SealedPropertyInitializer.cs:28-36 | the lazy filter-and-assign loop equals: resolve and assign the selected properties before the first throwing one, in order, failing iff there is one |
| SealedPropertyInitialization.SealedPropertyInitializer.Setup | src/AutoMoq.Boost/Initializers/SealedPropertyInitializer.cs:23-37 | null mock or wrong arity fails; otherwise exactly the selected properties before the first throwing one are resolved, in order, and assigned; no setup is registered |
| SealedPropertyInitialization.SealedPropertyInitializer.AssignSelected | src/AutoMoq.Boost/Initializers/SealedPropertyInitializer.cs:32-36 | the loop's outcome, requests and property values are those of the loop's specification |
| SealedPropertyInitialization.SelectedHoldsResolvedValue | src/AutoMoq.Boost/Initializers/SealedPropertyInitializer.cs:32-36 | a selected property holds the value made for its type at its own turn among the selected ones |
| SealedPropertyInitialization.UnassignedNameUnchanged | src/AutoMoq.Boost/Initializers/SealedPropertyInitializer.cs:28-36 | a name no selected property carries keeps its value, or its absence |
| SealedPropertyInitialization.UnselectedPropertyUnchanged | src/AutoMoq.Boost/Initializers/SealedPropertyInitializer.cs:28-30 | read-only and overridable-setter properties keep their values |
| SealedPropertyInitialization.FrozenTypeGivesFrozenValue | test/AutoMoq.Boost.Tests.Unit/Initializers/SealedPropertyInitializerTests.cs:18-27 | over a frozen type, a selected property holds the frozen value |
| SealedPropertyInitialization.MixedSelection | test/AutoMoq.Boost.Tests.Unit/Initializers/SealedPropertyInitializerTests.cs:18-56 | of a sealed, an implicitly sealed, a virtual and a read-only property, the first two are selected and none throws |
| SealedPropertyInitialization.SealedPropertiesScenario | test/AutoMoq.Boost.Tests.Unit/Initializers/SealedPropertyInitializerTests.cs:18-56 | both sealed properties receive the frozen string, the others are untouched, and a second Setup resolves both again |
| SealedPropertyInitialization.PrivateSetterScenario | src/AutoMoq.Boost/Initializers/SealedPropertyInitializer.cs:28-30 | as written, a writable property with a private setter makes Setup fail before resolving anything |
| SealedPropertyInitialization.CorrectedFilterIsTotal | src/AutoMoq.Boost/Initializers/SealedPropertyInitializer.cs:28-30 | the corrected filter never throws and selects exactly what the written one selects |
| MockMethodInitialization.SelectedIffNonGenericNonVoid | src/AutoMoq.Boost/MockMethodInitializer.cs:38-40 | a method is selected iff it is non-generic and not void, whatever its overridability |
| MockMethodInitialization.VirtualSelectionIsNarrower | src/AutoMoq.Boost/MockMethodInitializer.cs:38-40 | the newer filter is exactly this one restricted to overridable methods |
| MockMethodInitialization.MockMethodInitializer.constructor | src/AutoMoq.Boost/MockMethodInitializer.cs:25-28 | captures the fixture |
| MockMethodInitialization.MockMethodInitializer.Setup | src/AutoMoq.Boost/MockMethodInitializer.cs:35-53 | the outcome is SetupOutcome: a null mock or wrong arity fails; otherwise the selected methods before the first one that breaks the loop each get a lazy setup answering from the captured fixture, in order; the fixture is asked nothing; the breaking method's error ends Setup |
| MockMethodInitialization.MockMethodInitializer.SetUpSelected | src/AutoMoq.Boost/MockMethodInitializer.cs:42-52 | the loop stops at the first breaking method: InvalidTypeArgument for a by-ref parameter, TargetInvocation wrapping NotSupported for a method Moq cannot override; the lazy setups made before it are kept |
| MockMethodInitialization.MockMethodInitializer.SetUpLazily | src/AutoMoq.Boost/MockMethodInitializer.cs:44-51 | one iteration appends one fresh setup with the method's pattern and return type, answering lazily from the fixture |
| MockMethodInitialization.LazilyAnswered | src/AutoMoq.Boost/MockMethodInitializer.cs:42-52 | a well-typed call of the j-th set-up method is answered by its own setup, which resolves the method's return type from the fixture |
| MockMethodInitialization.OverridableSelectionNeverRefused | src/AutoMoq.Boost/Initializers/VirtualMethodInitializer.cs:33-36 | a method the newer filter selects, without by-ref parameters, is selected here too and never stops the loop |
| MockMethodInitialization.InterfaceMethodScenario | test/AutoMoq.Boost.Tests.Unit/MockMethodInitializerTests.cs:18-30 | the interface's string method returns the fixture's value; no request during Setup, one at the first call, and the second call returns the same value without another |
| MockMethodInitialization.SealedMethodScenario | src/AutoMoq.Boost/MockMethodInitializer.cs:38-40 | as written, an `override sealed` method makes Setup fail with TargetInvocation wrapping NotSupported, with no setup and no request |
| MockPropertyInitialization.SelectedIffReadable | src/AutoMoq.Boost/MockPropertyInitializer.cs:37 | a property is selected iff it can be read, whatever its accessors |
| MockPropertyInitialization.MakePropertyAccessLambda | src/AutoMoq.Boost/MockPropertyInitializer.cs:56-63 | a member access on the lambda's own parameter, typed as the mocked type, whose target is the public getter |
| MockPropertyInitialization.PropertyAccessMatchesExactly | src/AutoMoq.Boost/MockPropertyInitializer.cs:56-63 | the pattern matches exactly the argument-less calls of the property's public getter |
| MockPropertyInitialization.BreaksIffNotInterceptable | src/AutoMoq.Boost/MockPropertyInitializer.cs:45 | a property stops the loop iff Moq cannot intercept its access pattern |
| MockPropertyInitialization.MockPropertyInitializer.constructor | src/AutoMoq.Boost/MockPropertyInitializer.cs:24-27 | captures the fixture |
| MockPropertyInitialization.MockPropertyInitializer.Setup | src/AutoMoq.Boost/MockPropertyInitializer.cs:34-50 | the outcome is SetupOutcome: a null mock or wrong arity fails; otherwise the readable properties before the first one Moq refuses each get a getter setup answering lazily from the captured fixture, in order; the fixture is asked nothing |
| MockPropertyInitialization.MockPropertyInitializer.SetUpSelected | src/AutoMoq.Boost/MockPropertyInitializer.cs:39-49 | the loop stops at the first refused getter with TargetInvocation wrapping NotSupported, keeping the lazy setups made before it |
| MockPropertyInitialization.MockPropertyInitializer.SetUpAccess | src/AutoMoq.Boost/MockPropertyInitializer.cs:41-48 | refused with TargetInvocation wrapping NotSupported, changing nothing, iff the getter cannot be intercepted; otherwise one fresh setup appended, answering lazily from the fixture |
| MockPropertyInitialization.LazilyAnsweredRead | src/AutoMoq.Boost/MockPropertyInitializer.cs:39-49 | reading the j-th set-up property is answered by its own setup, which resolves the property's type from the fixture |
| MockPropertyInitialization.ReadablePropertyScenario | test/AutoMoq.Boost.Tests.Unit/MockPropertyInitializerTests.cs:16-29 | reading the property returns the fixture's value; no request during Setup, one at the first read, and the second read returns the same value without another |
| MockPropertyInitialization.SetOnlyPropertyScenario | test/AutoMoq.Boost.Tests.Unit/MockPropertyInitializerTests.cs:31-36 | a set-only property is skipped without failure, registration or request |
| MockSetups.MockSetup.constructor | src/AutoMoq.Boost/MockSetup.cs:34-38 | stores the builder and the initializers |
| MockSetups.AsMock | src/AutoMoq.Boost/MockSetup.cs:55 | `specimen as Mock`: the mock itself, or null for any other specimen |
| MockSetups.FirstFailure | src/AutoMoq.Boost/MockSetup.cs:57-58 | the position of the first initializer whose Setup fails on the mock; every one before it passes |
| MockSetups.NullMockFailsFirst | src/AutoMoq.Boost/MockSetup.cs:55-58 | on the null a non-mock specimen is cast to, the first initializer fails with NullReference |
| MockSetups.MockSetup.Create | src/AutoMoq.Boost/MockSetup.cs:49-61 | inner builder asked once; NoSpecimen returned with no initializer run; otherwise the initializers run in order on the cast mock up to and including the first that fails, whose error is returned; if none fails the mock is returned; a non-mock specimen fails the first initializer with NullReference |
| MockSetups.MockSetup.RunAll | src/AutoMoq.Boost/MockSetup.cs:57-58 | runs the initializers in order, each logged on the mock, and stops after the first whose Setup fails, with that initializer's outcome; a pass means all ran |
| MockSetups.MockSetup.RunOne | src/AutoMoq.Boost/MockSetup.cs:57-58 | the outcome is the called initializer's own Setup outcome, and the initializer is logged on the mock |
| MockSetups.NoSpecimenScenario | test/AutoMoq.Boost.Tests.Unit/MockSetupTests.cs:33-49 | NoSpecimen passes through; no initializer runs and nobody is asked for a value |
| MockSetups.NonMockSpecimenScenario | src/AutoMoq.Boost/MockSetup.cs:55-60 | a non-mock specimen fails the first initializer with NullReference; with no initializers null is returned |
| MockSetups.TriggersInitializersScenario | test/AutoMoq.Boost.Tests.Unit/MockSetupTests.cs:15-31 | Create returns the mock, both initializers ran, and the mock logs them in the given order |
| Customization.AutoMoqBoostCustomization.Default | src/AutoMoq.Boost/AutoMoqBoostCustomization.cs:22-26 | the relay is a fresh MockRelay |
| Customization.AutoMoqBoostCustomization.Relay | src/AutoMoq.Boost/AutoMoqBoostCustomization.cs:43-46 | the relay given at construction |
| Customization.AutoMoqBoostCustomization.constructor | src/AutoMoq.Boost/AutoMoqBoostCustomization.cs:32-38 | the relay is the argument |
| Customization.New | src/AutoMoq.Boost/AutoMoqBoostCustomization.cs:32-38 | fails with ArgumentNull iff the relay is null; otherwise Relay is the argument |
| Customization.AutoMoqBoostCustomization.Customize | src/AutoMoq.Boost/AutoMoqBoostCustomization.cs:53-63 | appends exactly one MockSetup over MockPostprocessor(MethodInvoker(MockConstructorQuery)) with a single VirtualMethodInitializer, and appends Relay to the residue collectors; nothing else changes |
| Customization.CustomizeScenario | test/AutoMoq.Boost.Tests.Unit/AutoMoqBoostCustomizationTests.cs:16-40 | on a fresh fixture: one MockSetup, carrying only the virtual-method initializer, and the MockRelay as residue collector |

## Left out

- Reflection and expression-tree plumbing: `MockEx.Setup`, the non-generic `ReturnsUsingContext` and `MockExtensions.Setup` find generic methods by name and invoke them. The model calls the registration and binding directly; of the reflective invocation it keeps only the TargetInvocation wrapping of what the invoked method throws. Member descriptors and patterns are data.
- Static members: a type's descriptor lists only its public instance methods and properties, while `GetMethods()` and `GetProperties()` also return public static ones. The newer initializers never select a static member, because a static member is never virtual. The older ones do:
  - `MockMethodInitializer` selects a public static, non-generic, non-void method, and `Expression.Call` on the lambda's parameter throws ArgumentException;
  - `MockPropertyInitializer` selects a readable static property, and `Expression.MakeMemberAccess` on the lambda's parameter throws ArgumentException.

  In both cases Setup fails before Moq is asked anything, keeping the setups made before that member. The model shows neither failure.
- Indexed properties: `Expression.MakeMemberAccess` on an indexer (`src/AutoMoq.Boost/MockPropertyInitializer.cs:56-63`) and `SetValue` without an index (`src/AutoMoq.Boost/Initializers/SealedPropertyInitializer.cs:35`) both throw. A property descriptor has no index parameters, so such a property cannot be represented.
- Value resolution that fails: the context is a total oracle, so an unresolvable type is not modelled.
- Concurrency: the memoising closure has no synchronisation. The model is single-threaded.
- Circular dependencies and dependency injection through the fixture, which depend on AutoFixture's pipeline. The laziness that makes cycles through overridable members safe is modelled (`MockEx.LazyBindingScenario`).
- The xUnit and NUnit data attributes: constructor wiring only.
- `IMockInitializer`: an interface declaration. The model uses a datatype over the four initializers.
- The behaviour of `MockRelay`, `MockPostprocessor`, `MethodInvoker` and `MockConstructorQuery`. They are named by kind only.
- Moq's matching of `It.IsAny<T>` is modelled as equality of the argument's static type with `T`, with no subtyping or nulls. A call no setup matches returns an abstract baseline, not Moq's default value or the class's own body.
- `mock.Object`: the sealed-property assignments go to a property map on the mock itself, and creating the proxy is not modelled.
- Inherited `System.Object` methods are not added to a class's method list. A type lists exactly the members its descriptor gives. On a real class mock `GetMethods()` also returns them, with two consequences the model does not show:
  - `ToString`, `Equals` and `GetHashCode` are virtual, non-final and non-void, so `VirtualMethodInitializer` also gives every class mock three lazy setups for them;
  - `GetType` is non-virtual, non-generic and non-void, so `MockMethodInitializer`'s filter selects it and Moq refuses it. The older initializer therefore fails with TargetInvocation wrapping NotSupported on every class mock, not only on classes with sealed methods (finding 3).
- Out-parameter binding: no initializer implements it.
- MockSetups.MockSetup.Create: states which initializers ran, in order, which one failed and with what error. It does not restate each initializer's own effect on the mock's setups and property values.
- MockSetups.MockSetup.constructor: the `params` array constructor and the enumerable one both store the arguments, so they are one constructor.
- MockMethodInitialization.MockMethodInitializer.Setup: the fixture (`IFixture`) is modelled as a value context. The undefined four-argument `ReturnsUsingFixture` is read as `MockEx`'s lazy binding over the captured fixture, not as `MockExtensions.ReturnsFromFixture`'s eager one. The private `MakeMethodInvocationLambda` of this class is the same as `VirtualMethodInitializer`'s, so both use one definition.
- MockPropertyInitialization.MockPropertyInitializer.Setup: the undefined four-argument `ReturnsUsingFixture` is read as `MockEx`'s lazy binding over the captured fixture, as in `MockMethodInitializer`.
- SealedPropertyInitialization.SelectedHoldsResolvedValue: assumes the selected properties have distinct names. A property hidden with `new` gives two properties of one name; the later assignment wins, and the lemma says nothing about that case.
- SealedPropertyInitialization.UnselectedPropertyUnchanged: assumes distinct property names for the same reason. The property store is keyed by name, so an unselected property that a selected one hides with `new` does change.
- SealedPropertyInitialization.FrozenTypeGivesFrozenValue: assumes distinct property names for the same reason. The property store is keyed by name, so of two properties of one name the later assignment wins.

## Findings

| source | as written | input that shows it | evidently intended | confidence | as-written member | corrected member |
|---|---|---|---|---|---|---|
| src/AutoMoq.Boost/Initializers/VirtualMethodInitializer.cs:33-36 | the filter keeps overridable methods with `out` / `ref` parameters, and `It.IsAny<T>` cannot be made generic over a by-ref type, so Setup throws | an interface with `bool TryParse(string s, out int n)` | leave out methods with out or ref parameters (the unused HasOutParameters / HasRefParameters exist for this) | medium, not executed | VirtualMethodInitialization.OutParameterScenario | VirtualMethodInitialization.SupportedMethodsBuild |
| src/AutoMoq.Boost/Initializers/SealedPropertyInitializer.cs:28-30 | `CanWrite` holds for a property with a private setter, `GetSetMethod()` then returns null and `IsSealed()` on it throws | a class with `public string Name { get; private set; }` | treat a missing public setter as not selected | high, not executed | SealedPropertyInitialization.PrivateSetterScenario | SealedPropertyInitialization.CorrectedFilterIsTotal |
| src/AutoMoq.Boost/MockMethodInitializer.cs:38-40 | the filter does not ask whether Moq can override the method; Moq refuses to set up a sealed one, and the refusal escapes as a TargetInvocationException wrapping NotSupportedException | a class with `public override sealed string AbstractMethod()` | skip non-overridable methods, as the newer filter does | medium, not executed | MockMethodInitialization.SealedMethodScenario | MockMethodInitialization.OverridableSelectionNeverRefused |
