/**
 * The part of Moq the auto-setup code drives: a mock of one type, the setups registered on
 * it, and how a call on the mocked object is answered. The most recent matching setup
 * answers; a call no setup matches keeps the object's baseline behaviour (Moq's default
 * value, or the real body of a member Moq cannot override).
 */
module Moq {
  import opened Wrappers
  import opened Reflection
  import opened Expressions
  import opened Kernel
  import MethodBaseExtensions

  /**
   * What a setup answers with: nothing configured yet, the memoising closure installed by
   * ReturnsUsingContext (it closes over a context), or a constant.
   */
  datatype Response =
    | NoReturn
    | ReturnsLazily(context: SpecimenContext)
    | ReturnsValue(value: Value)

  datatype Reply = Returned(value: Value) | Baseline

  /** One registered setup: its pattern, its result type and its current response. */
  class CallSetup {
    const expression: Lambda
    const resultType: TypeName
    var response: Response

    constructor (expression: Lambda, resultType: TypeName)
      ensures this.expression == expression && this.resultType == resultType
      ensures response == NoReturn
    {
      this.expression := expression;
      this.resultType := resultType;
      response := NoReturn;
    }

    /** The objects answering a call may change: the context a lazy response resolves from. */
    function ResponseFrame(): set<object>
      reads this
    {
      if response.ReturnsLazily? then {response.context} else {}
    }

    /**
     * Answers one matching call. The lazy closure resolves the result type once from its
     * context, rebinds this setup to the value it got, and returns it.
     */
    method Respond() returns (r: Reply)
      modifies this, ResponseFrame()
      ensures old(response).NoReturn? ==> r == Baseline && response == NoReturn
      ensures old(response).ReturnsValue? ==> r == Returned(old(response).value) && response == old(response)
      ensures old(response).ReturnsLazily? ==>
        var context := old(response).context;
        var v := context.oracle(resultType, |old(context.requests)|);
        && context.requests == old(context.requests) + [resultType]
        && r == Returned(v)
        && response == ReturnsValue(v)
    {
      match response
      case NoReturn =>
        r := Baseline;
      case ReturnsValue(v) =>
        r := Returned(v);
      case ReturnsLazily(context) =>
        var v := context.Resolve(resultType);
        response := ReturnsValue(v);
        r := Returned(v);
    }
  }

  /** Moq intercepts only a member that exists and is overridable. */
  predicate Interceptable(l: Lambda) {
    Target(l).Some? && MethodBaseExtensions.IsOverridable(Target(l).value)
  }

  /** The position of the most recently registered setup that matches a call. */
  function LastMatch(setups: seq<CallSetup>, inv: Invocation): (k: Option<nat>)
    ensures k.Some? ==>
      && k.value < |setups|
      && Matches(setups[k.value].expression, inv)
      && forall j :: k.value < j < |setups| ==> !Matches(setups[j].expression, inv)
    ensures k.None? ==> forall j :: 0 <= j < |setups| ==> !Matches(setups[j].expression, inv)
  {
    if setups == [] then None
    else if Matches(setups[|setups| - 1].expression, inv) then Some(|setups| - 1)
    else LastMatch(setups[..|setups| - 1], inv)
  }

  class Mock {
    /** The generic arguments of the mock's runtime type: [T] for a Mock<T>. */
    const typeArguments: seq<TypeDescriptor>
    var setups: seq<CallSetup>
    /** The state of the mocked object's (non-intercepted) properties. */
    var propertyValues: map<string, Value>
    /** The initializers that have run Setup on this mock, in order. */
    ghost var setupLog: seq<object>

    constructor (typeArguments: seq<TypeDescriptor>)
      ensures this.typeArguments == typeArguments
      ensures setups == [] && propertyValues == map[] && setupLog == []
    {
      this.typeArguments := typeArguments;
      setups := [];
      propertyValues := map[];
      setupLog := [];
    }

    /**
     * Mock<T>.Setup(expression): registers a new setup with no response, or throws
     * NotSupportedException when the target member cannot be intercepted.
     */
    method RegisterSetup(expression: Lambda, resultType: TypeName) returns (r: Result<CallSetup>)
      modifies this
      ensures Interceptable(expression) ==>
        && r.Ok? && fresh(r.value)
        && r.value.expression == expression && r.value.resultType == resultType
        && r.value.response == NoReturn
        && setups == old(setups) + [r.value]
      ensures !Interceptable(expression) ==> r == Err(NotSupported) && setups == old(setups)
      ensures propertyValues == old(propertyValues) && setupLog == old(setupLog)
    {
      if Interceptable(expression) {
        var s := new CallSetup(expression, resultType);
        setups := setups + [s];
        r := Ok(s);
      } else {
        r := Err(NotSupported);
      }
    }

    /** PropertyInfo.SetValue on the mocked object. */
    method SetPropertyValue(name: string, v: Value)
      modifies this
      ensures propertyValues == old(propertyValues)[name := v]
      ensures setups == old(setups) && setupLog == old(setupLog)
    {
      propertyValues := propertyValues[name := v];
    }

    /** The objects answering a call may change: the matching setup and its context. */
    function InvokeFrame(inv: Invocation): set<object>
      reads this, setups
    {
      match LastMatch(setups, inv)
      case None => {}
      case Some(k) => {setups[k]} + setups[k].ResponseFrame()
    }

    /** A call on the mocked object, answered by the most recent matching setup. */
    method Invoke(inv: Invocation) returns (r: Reply)
      modifies InvokeFrame(inv)
      ensures setups == old(setups) && propertyValues == old(propertyValues)
      ensures LastMatch(setups, inv).None? ==> r == Baseline
      ensures LastMatch(setups, inv).Some? ==>
        var s := setups[LastMatch(setups, inv).value];
        && (old(s.response).NoReturn? ==> r == Baseline && s.response == NoReturn)
        && (old(s.response).ReturnsValue? ==> r == Returned(old(s.response).value) && s.response == old(s.response))
        && (old(s.response).ReturnsLazily? ==>
              var context := old(s.response).context;
              var v := context.oracle(s.resultType, |old(context.requests)|);
              && context.requests == old(context.requests) + [s.resultType]
              && r == Returned(v)
              && s.response == ReturnsValue(v))
    {
      var k := LastMatch(setups, inv);
      if k.None? {
        r := Baseline;
      } else {
        r := setups[k.value].Respond();
      }
    }
  }
}
