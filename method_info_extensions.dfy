/**
 * Classification of methods (src/AutoMoq.Boost/Extensions/MethodInfoExtensions.cs):
 * overridable, sealed, void, and whether out / ref parameters are declared.
 */
module MethodInfoExtensions {
  import opened Reflection
  import Linq

  /**
   * Overridable means virtual and not final. Interface implementations and
   * `override sealed` methods are marked "virtual final", so virtual alone is not enough.
   */
  predicate IsOverridable(m: MethodDescriptor) {
    m.isVirtual && !m.isFinal
  }

  predicate IsSealed(m: MethodDescriptor) {
    !IsOverridable(m)
  }

  predicate IsVoid(m: MethodDescriptor) {
    m.returnType == Void
  }

  predicate IsOutParameter(p: ParameterDescriptor) {
    p.isOut
  }

  /** A `ref` parameter: by-ref, but not one of the `out` parameters that are by-ref too. */
  predicate IsRefParameter(p: ParameterDescriptor) {
    p.isByRef && !p.isOut
  }

  function HasOutParameters(m: MethodDescriptor): (r: bool)
    ensures r <==> exists i :: 0 <= i < |m.parameters| && m.parameters[i].isOut
  {
    Linq.Any(m.parameters, IsOutParameter)
  }

  function HasRefParameters(m: MethodDescriptor): (r: bool)
    ensures r <==> exists i :: 0 <= i < |m.parameters| && m.parameters[i].isByRef && !m.parameters[i].isOut
  {
    Linq.Any(m.parameters, IsRefParameter)
  }
}
