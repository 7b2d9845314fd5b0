/**
 * MockSetup (src/AutoMoq.Boost/MockSetup.cs): a specimen builder that decorates another one.
 * It passes the inner builder's NoSpecimen through untouched, and runs every initializer, in
 * order, on any other specimen it gets, cast to a mock.
 */
module MockSetups {
  import opened Wrappers
  import opened Reflection
  import opened Kernel
  import opened Moq
  import opened Linq
  import opened Builders
  import VirtualMethodInitialization
  import SealedPropertyInitialization
  import MockMethodInitialization
  import MockPropertyInitialization

  /** The initializers a MockSetup can run. The older two carry the fixture they captured. */
  datatype Initializer =
    | VirtualMethods(virtualMethods: VirtualMethodInitialization.VirtualMethodInitializer)
    | SealedProperties(sealedProperties: SealedPropertyInitialization.SealedPropertyInitializer)
    | MockMethods(mockMethods: MockMethodInitialization.MockMethodInitializer)
    | MockProperties(mockProperties: MockPropertyInitialization.MockPropertyInitializer)
  {
    /** The initializer object itself, as a mock's setup log records it. */
    function Object(): object {
      match this
      case VirtualMethods(i) => i
      case SealedProperties(i) => i
      case MockMethods(i) => i
      case MockProperties(i) => i
    }

    /** How this initializer's Setup ends on the mock, or on null. */
    function SetupOutcome(mock: Mock?): Outcome {
      match this
      case VirtualMethods(_) => VirtualMethodInitialization.SetupOutcome(mock)
      case SealedProperties(_) => SealedPropertyInitialization.SetupOutcome(mock)
      case MockMethods(_) => MockMethodInitialization.SetupOutcome(mock)
      case MockProperties(_) => MockPropertyInitialization.SetupOutcome(mock)
    }
  }

  function ObjectOf(i: Initializer): object {
    i.Object()
  }

  /** Given no mock, every initializer fails with NullReference, so the first one ends the run. */
  lemma NullMockFailsFirst(initializers: seq<Initializer>)
    requires initializers != []
    ensures FirstFailure(initializers, null) == 0
    ensures initializers[0].SetupOutcome(null) == Fail(NullReference)
  {
  }

  /** The position of the first initializer whose Setup fails on the mock; all before it pass. */
  function FirstFailure(initializers: seq<Initializer>, mock: Mock?): (k: nat)
    ensures k <= |initializers|
    ensures forall i :: 0 <= i < k ==> initializers[i].SetupOutcome(mock) == Pass
    ensures k < |initializers| ==> initializers[k].SetupOutcome(mock).Fail?
  {
    if initializers == [] then 0
    else if initializers[0].SetupOutcome(mock).Fail? then 0
    else 1 + FirstFailure(initializers[1..], mock)
  }

  /** The mock a specimen is when cast with `as Mock`: the mock itself, or null. */
  function AsMock(s: Specimen): Mock? {
    if s.MockSpecimen? then s.mock else null
  }

  class MockSetup {
    const builder: SpecimenBuilder
    const initializers: seq<Initializer>

    /** Both source constructors (a params array and an enumerable) store the two arguments. */
    constructor (builder: SpecimenBuilder, initializers: seq<Initializer>)
      ensures this.builder == builder && this.initializers == initializers
    {
      this.builder := builder;
      this.initializers := initializers;
    }

    /** The mock the inner builder hands back for a request, if it hands back a mock. */
    function MockFrame(request: Request): set<object> {
      if builder.Answer(request).MockSpecimen? then {builder.Answer(request).mock} else {}
    }

    /**
     * ISpecimenBuilder.Create. The inner builder is asked once, with the same request and
     * context. NoSpecimen is returned as it is and no initializer runs. Otherwise the
     * initializers run in order on the specimen cast to a mock, and that mock is returned;
     * an initializer that fails ends Create with its error (`ran` counts those that ran).
     */
    method Create(request: Request, context: SpecimenContext) returns (r: Result<Specimen>, ran: nat)
      modifies builder, context, MockFrame(request)
      ensures builder.calls == old(builder.calls) + [(request, context)]
      ensures ran <= |initializers|
      ensures builder.Answer(request).NoSpecimen? ==> r == Ok(NoSpecimen) && ran == 0 && context.requests == old(context.requests)
      ensures !builder.Answer(request).NoSpecimen? ==>
        var mock := AsMock(builder.Answer(request));
        var k := FirstFailure(initializers, mock);
        && ran == (if k == |initializers| then k else k + 1)
        && r == (if k < |initializers| then Err(initializers[k].SetupOutcome(mock).error)
                 else if mock != null then Ok(builder.Answer(request))
                 else Ok(Null))
      ensures builder.Answer(request).MockSpecimen? ==>
        var mock := builder.Answer(request).mock;
        && mock.setupLog == old(mock.setupLog) + Select(initializers[..ran], ObjectOf)
        && (r.Ok? ==> r.value == builder.Answer(request))
      ensures !builder.Answer(request).NoSpecimen? && !builder.Answer(request).MockSpecimen? ==>
        if initializers == [] then r == Ok(Null) else r == Err(NullReference) && ran == 1
    {
      var specimen := builder.Create(request, context);
      if specimen.NoSpecimen? {
        return Ok(specimen), 0;
      }
      if !specimen.MockSpecimen? && initializers != [] {
        NullMockFailsFirst(initializers);
      }
      var outcome;
      outcome, ran := RunAll(AsMock(specimen), context);
      if outcome.Fail? {
        return Err(outcome.error), ran;
      }
      if !specimen.MockSpecimen? {
        return Ok(Null), ran;
      }
      r := Ok(specimen);
    }

    /**
     * The loop of Create: every initializer in order, stopping after the first that fails,
     * with that initializer's error.
     */
    method RunAll(mock: Mock?, context: SpecimenContext) returns (o: Outcome, ran: nat)
      modifies mock, context
      ensures ran <= |initializers|
      ensures var k := FirstFailure(initializers, mock);
        && ran == (if k == |initializers| then k else k + 1)
        && o == (if k == |initializers| then Pass else initializers[k].SetupOutcome(mock))
      ensures mock != null ==> mock.setupLog == old(mock.setupLog) + Select(initializers[..ran], ObjectOf)
    {
      ghost var log0 := if mock != null then mock.setupLog else [];
      ghost var k := FirstFailure(initializers, mock);
      ran := 0;
      while ran < |initializers|
        invariant ran <= k
        invariant mock != null ==> mock.setupLog == log0 + Select(initializers[..ran], ObjectOf)
      {
        var outcome := RunOne(initializers[ran], mock, context);
        SelectPrefix(initializers, ran, ObjectOf);
        ran := ran + 1;
        if outcome.Fail? {
          assert ran - 1 == k;
          return outcome, ran;
        }
      }
      o := Pass;
    }

    /** `initializer.Setup(mock)`, handing the context to the initializers that take one. */
    method RunOne(initializer: Initializer, mock: Mock?, context: SpecimenContext) returns (o: Outcome)
      modifies mock, context
      ensures o == initializer.SetupOutcome(mock)
      ensures mock != null ==> mock.setupLog == old(mock.setupLog) + [initializer.Object()]
    {
      match initializer
      case VirtualMethods(i) =>
        o := i.Setup(mock, context);
      case SealedProperties(i) =>
        o := i.Setup(mock, context);
      case MockMethods(i) =>
        o := i.Setup(mock);
      case MockProperties(i) =>
        o := i.Setup(mock);
    }
  }

  /**
   * An inner builder that cannot handle the request: Create returns NoSpecimen, no
   * initializer runs and neither the context nor a captured fixture is asked for anything.
   */
  method NoSpecimenScenario(oracle: (TypeName, nat) -> Value) returns (r: Result<Specimen>, ran: nat, requests: nat, calls: nat)
    ensures r == Ok(NoSpecimen) && ran == 0 && requests == 0 && calls == 1
  {
    var context := new SpecimenContext(oracle);
    var fixture := new SpecimenContext(oracle);
    var builder := new SpecimenBuilder(Scripted, map[]);
    var virtualMethods := new VirtualMethodInitialization.VirtualMethodInitializer();
    var mockMethods := new MockMethodInitialization.MockMethodInitializer(fixture);
    var setup := new MockSetup(builder, [VirtualMethods(virtualMethods), MockMethods(mockMethods)]);
    r, ran := setup.Create(Request(0), context);
    requests := |context.requests| + |fixture.requests|;
    calls := |builder.calls|;
  }

  /**
   * A specimen that is not a mock is not skipped: the cast yields null and the first
   * initializer fails on it; with no initializers, null is returned.
   */
  method NonMockSpecimenScenario(oracle: (TypeName, nat) -> Value)
    returns (withInitializer: Result<Specimen>, ran: nat, withNone: Result<Specimen>)
    ensures withInitializer == Err(NullReference) && ran == 1
    ensures withNone == Ok(Null)
  {
    var context := new SpecimenContext(oracle);
    var builder := new SpecimenBuilder(Scripted, map[Request(0) := OtherSpecimen(Value(7))]);
    var virtualMethods := new VirtualMethodInitialization.VirtualMethodInitializer();
    var setup := new MockSetup(builder, [VirtualMethods(virtualMethods)]);
    withInitializer, ran := setup.Create(Request(0), context);
    var bare := new MockSetup(builder, []);
    var none;
    withNone, none := bare.Create(Request(0), context);
  }

  /**
   * Every initializer runs once on the mock, in the order given, and the same mock comes
   * back; on this interface neither initializer can fail.
   */
  method TriggersInitializersScenario(oracle: (TypeName, nat) -> Value)
    returns (r: Result<Specimen>, mock: Mock, ran: nat, ghost log: seq<object>, first: object, second: object)
    ensures r == Ok(MockSpecimen(mock)) && ran == 2 && log == [first, second]
  {
    VirtualMethodInitialization.InterfaceSelection();
    var context := new SpecimenContext(oracle);
    mock := new Mock([VirtualMethodInitialization.Interface]);
    var builder := new SpecimenBuilder(Scripted, map[Request(0) := MockSpecimen(mock)]);
    var virtualMethods := new VirtualMethodInitialization.VirtualMethodInitializer();
    var sealedProperties := new SealedPropertyInitialization.SealedPropertyInitializer();
    first, second := virtualMethods, sealedProperties;
    var initializers := [VirtualMethods(virtualMethods), SealedProperties(sealedProperties)];
    assert initializers[0].SetupOutcome(mock) == Pass && initializers[1].SetupOutcome(mock) == Pass;
    var setup := new MockSetup(builder, initializers);
    r, ran := setup.Create(Request(0), context);
    log := mock.setupLog;
    assert initializers[..2] == initializers;
  }
}
