/**
 * AutoFixture's specimen builders, as far as the auto-setup code touches them: a request,
 * what a builder hands back (possibly the NoSpecimen marker, possibly a mock), and a builder
 * whose answer is fixed by the request. The builders the customization composes are named
 * by kind only; their own behaviour belongs to AutoFixture.
 */
module Builders {
  import opened Reflection
  import opened Kernel
  import opened Moq

  /** An opaque request for a specimen (a type, a parameter, ...). */
  datatype Request = Request(token: int)

  /** What a builder returns: the NoSpecimen marker, a mock, some other object, or null. */
  datatype Specimen =
    | NoSpecimen
    | MockSpecimen(mock: Mock)
    | OtherSpecimen(value: Value)
    | Null

  datatype Query = MockConstructorQuery

  datatype BuilderKind =
    | MockRelay
    | MockPostprocessor(inner: BuilderKind)
    | MethodInvoker(query: Query)
    | Scripted

  class SpecimenBuilder {
    const kind: BuilderKind
    /** The specimens the builder hands back; it cannot handle any other request. */
    const answers: map<Request, Specimen>
    /** Every Create call made on this builder, with its request and context, in order. */
    var calls: seq<(Request, SpecimenContext)>

    constructor (kind: BuilderKind, answers: map<Request, Specimen>)
      ensures this.kind == kind && this.answers == answers && calls == []
    {
      this.kind := kind;
      this.answers := answers;
      calls := [];
    }

    /** The specimen for a request: NoSpecimen for a request the builder cannot handle. */
    function Answer(request: Request): Specimen {
      if request in answers then answers[request] else NoSpecimen
    }

    /** ISpecimenBuilder.Create. */
    method Create(request: Request, context: SpecimenContext) returns (s: Specimen)
      modifies this
      ensures s == Answer(request)
      ensures calls == old(calls) + [(request, context)]
    {
      s := Answer(request);
      calls := calls + [(request, context)];
    }
  }
}
