/**
 * AutoMoqBoostCustomization (src/AutoMoq.Boost/AutoMoqBoostCustomization.cs): enables
 * auto-mocking with auto-setup on a fixture. It adds one MockSetup, decorating the
 * mock-creating builder chain with the virtual-method initializer, to the fixture's
 * customizations, and adds a relay to its residue collectors.
 */
module Customization {
  import opened Wrappers
  import opened Builders
  import opened MockSetups
  import VirtualMethodInitialization

  /** A fixture customization: a plain builder, or a MockSetup decorating one. */
  datatype Customizer = Plain(builder: SpecimenBuilder) | AutoSetup(mockSetup: MockSetup)

  /** The parts of an IFixture the customization changes. */
  class Fixture {
    var customizations: seq<Customizer>
    var residueCollectors: seq<SpecimenBuilder>

    constructor ()
      ensures customizations == [] && residueCollectors == []
    {
      customizations := [];
      residueCollectors := [];
    }
  }

  /** The builder chain MockSetup decorates: MockPostprocessor(MethodInvoker(MockConstructorQuery)). */
  const MockCreation := MockPostprocessor(MethodInvoker(MockConstructorQuery))

  /** The MockSetup Customize installs: the mock-creating chain, and the virtual-method initializer only. */
  predicate IsBoostSetup(c: Customizer) {
    && c.AutoSetup?
    && c.mockSetup.builder.kind == MockCreation
    && |c.mockSetup.initializers| == 1
    && c.mockSetup.initializers[0].VirtualMethods?
  }

  class AutoMoqBoostCustomization {
    /** The relay Customize adds to the residue collectors. */
    const relay: SpecimenBuilder

    /** The default constructor supplies a fresh MockRelay. */
    constructor Default()
      ensures fresh(relay) && relay.kind == MockRelay
    {
      relay := new SpecimenBuilder(MockRelay, map[]);
    }

    constructor (relay: SpecimenBuilder)
      ensures this.relay == relay
    {
      this.relay := relay;
    }

    /** The Relay property: the constructor's argument. */
    function Relay(): SpecimenBuilder {
      relay
    }

    /**
     * Appends one MockSetup, over a fresh mock-creating chain and with a fresh
     * VirtualMethodInitializer as its single initializer, to the customizations, then the
     * relay to the residue collectors. Nothing else in the fixture changes.
     */
    method Customize(fixture: Fixture)
      modifies fixture
      ensures |fixture.customizations| == |old(fixture.customizations)| + 1
      ensures fixture.customizations[..|old(fixture.customizations)|] == old(fixture.customizations)
      ensures var added := fixture.customizations[|old(fixture.customizations)|];
        && IsBoostSetup(added)
        && fresh(added.mockSetup) && fresh(added.mockSetup.builder)
        && fresh(added.mockSetup.initializers[0].virtualMethods)
      ensures fixture.residueCollectors == old(fixture.residueCollectors) + [Relay()]
    {
      var creation := new SpecimenBuilder(MockCreation, map[]);
      var initializer := new VirtualMethodInitialization.VirtualMethodInitializer();
      var mockSetup := new MockSetup(creation, [VirtualMethods(initializer)]);
      fixture.customizations := fixture.customizations + [AutoSetup(mockSetup)];
      fixture.residueCollectors := fixture.residueCollectors + [Relay()];
    }
  }

  /** `new AutoMoqBoostCustomization(relay)`: a null relay throws ArgumentNullException. */
  method New(relay: SpecimenBuilder?) returns (r: Result<AutoMoqBoostCustomization>)
    ensures relay == null <==> r.Err?
    ensures r.Err? ==> r.error == ArgumentNull
    ensures r.Ok? ==> fresh(r.value) && r.value.Relay() == relay
  {
    if relay == null {
      return Err(ArgumentNull);
    }
    var c := new AutoMoqBoostCustomization(relay);
    r := Ok(c);
  }

  /**
   * The unit tests' expectations on a fresh fixture: Customize leaves exactly one MockSetup
   * among the customizations, carrying only the virtual-method initializer, and the MockRelay
   * among the residue collectors.
   */
  method CustomizeScenario() returns (setups: nat, initializers: nat, relays: nat, virtualOnly: bool)
    ensures setups == 1 && initializers == 1 && relays == 1 && virtualOnly
  {
    var boost := new AutoMoqBoostCustomization.Default();
    var fixture := new Fixture();
    boost.Customize(fixture);
    setups := |fixture.customizations|;
    var added := fixture.customizations[0];
    initializers := |added.mockSetup.initializers|;
    relays := |fixture.residueCollectors|;
    virtualOnly := added.mockSetup.initializers[0].VirtualMethods? && fixture.residueCollectors[0].kind == MockRelay;
  }
}
