/**
 * The value-generation service the auto-setup code consumes (AutoFixture's
 * ISpecimenContext, usually a SpecimenContext over a fixture). Its only capability is
 * resolving a value of a requested type. What it produces is an oracle of the type and of
 * how many requests came before, so a frozen type is one whose answer never changes.
 */
module Kernel {
  import opened Reflection

  class SpecimenContext {
    /** The value produced for a type when that many requests have already been made. */
    const oracle: (TypeName, nat) -> Value
    /** Every type requested so far, in order; its length counts the Resolve calls. */
    var requests: seq<TypeName>

    constructor (oracle: (TypeName, nat) -> Value)
      ensures this.oracle == oracle && requests == []
    {
      this.oracle := oracle;
      requests := [];
    }

    /** ISpecimenContext.Resolve: one request, answered by the oracle. */
    method Resolve(t: TypeName) returns (v: Value)
      modifies this
      ensures requests == old(requests) + [t]
      ensures v == oracle(t, |old(requests)|)
    {
      v := oracle(t, |requests|);
      requests := requests + [t];
    }

    /** A frozen type resolves to the same value on every request. */
    ghost predicate Frozen(t: TypeName) {
      forall n: nat :: oracle(t, n) == oracle(t, 0)
    }
  }
}
