/**
 * The same overridable / sealed classification for any method or accessor
 * (src/AutoMoq.Boost/Extensions/MethodBaseExtensions.cs). Property accessors reach
 * the auto-setup code as MethodBase values; in the model they are method descriptors too.
 */
module MethodBaseExtensions {
  import opened Reflection

  predicate IsOverridable(m: MethodDescriptor) {
    m.isVirtual && !m.isFinal
  }

  predicate IsSealed(m: MethodDescriptor) {
    !IsOverridable(m)
  }
}
