/**
 * The chain of local component converters: an ordered list of converters,
 * each a capability test plus a conversion. The first converter that accepts
 * a source converts it; when none does, conversion throws
 * IllegalArgumentException naming the source's class.
 */
module LocalConversion {
  import opened Wrappers
  import opened ResolveModel

  /** Metadata of a component built locally. */
  datatype LocalComponentMetadata = LocalComponentMetadata(componentId: string)

  /** What `toResolveMetaData()` makes of local metadata. */
  datatype ComponentResolveMetadata = ResolveMetadataOf(local: LocalComponentMetadata)

  /** One registered converter: its `canConvert` test and its `convert`. */
  datatype LocalComponentConverter = LocalComponentConverter(
    canConvert: ResolveContext -> bool,
    convert: ResolveContext -> LocalComponentMetadata)

  datatype IllegalArgumentException = IllegalArgumentException(message: string)

  const NoConverterMessage: string := "Unable to find a local converter factory for type "

  /** Java's `Class.toString()` for the class of an object: "class " and its name. */
  function ClassString(source: ResolveContext): string {
    "class " + source.className
  }

  /** True when some converter of the list accepts the source. */
  ghost predicate SomeAccepts(factories: seq<LocalComponentConverter>, source: ResolveContext) {
    exists i :: 0 <= i < |factories| && factories[i].canConvert(source)
  }

  /** The index of the first converter that accepts the source, if any. */
  function FirstAccepting(factories: seq<LocalComponentConverter>, source: ResolveContext): (r: Option<nat>)
    ensures r.Some? ==> r.value < |factories| && factories[r.value].canConvert(source)
    ensures r.Some? ==> forall j :: 0 <= j < r.value ==> !factories[j].canConvert(source)
    ensures r.None? <==> forall j :: 0 <= j < |factories| ==> !factories[j].canConvert(source)
  {
    if factories == [] then None
    else if factories[0].canConvert(source) then Some(0)
    else
      match FirstAccepting(factories[1..], source)
      case None => None
      case Some(k) => Some(k + 1)
  }

  /** What the chain's `convert` returns or throws for a source. */
  function Conversion(factories: seq<LocalComponentConverter>, source: ResolveContext)
    : (r: Result<LocalComponentMetadata, IllegalArgumentException>)
    ensures r.Failure? <==> !SomeAccepts(factories, source)
    ensures r.Failure? ==> r.error == IllegalArgumentException(NoConverterMessage + ClassString(source))
    ensures r.Success? ==>
      exists i :: 0 <= i < |factories| && factories[i].canConvert(source)
        && (forall j :: 0 <= j < i ==> !factories[j].canConvert(source))
        && r.value == factories[i].convert(source)
  {
    match FirstAccepting(factories, source)
    case Some(i) => Success(factories[i].convert(source))
    case None => Failure(IllegalArgumentException(NoConverterMessage + ClassString(source)))
  }

  /** An accepting index with no accepting index before it is the one FirstAccepting finds. */
  lemma {:induction false} FirstAcceptingAt(
    factories: seq<LocalComponentConverter>, source: ResolveContext, i: nat)
    requires i < |factories| && factories[i].canConvert(source)
    requires forall j :: 0 <= j < i ==> !factories[j].canConvert(source)
    ensures FirstAccepting(factories, source) == Some(i)
  {
    if i > 0 {
      assert !factories[0].canConvert(source);
      var rest := factories[1..];
      assert forall j :: 0 <= j < i - 1 ==> rest[j] == factories[j + 1];
      FirstAcceptingAt(rest, source, i - 1);
    }
  }

  /**
   * Converters after the first accepting one are never consulted: appending
   * any converters to a list that already accepts the source leaves the
   * outcome unchanged.
   */
  lemma {:induction false} ConversionIgnoresLaterConverters(
    factories: seq<LocalComponentConverter>, later: seq<LocalComponentConverter>, source: ResolveContext)
    requires SomeAccepts(factories, source)
    ensures Conversion(factories + later, source) == Conversion(factories, source)
  {
    var i := FirstAccepting(factories, source).value;
    var all := factories + later;
    assert forall j :: 0 <= j <= i ==> all[j] == factories[j];
    FirstAcceptingAt(all, source, i);
  }

  /** The converter chain; it is immutable after construction. */
  class ChainedLocalComponentConverter {
    const factories: seq<LocalComponentConverter>

    constructor (factories: seq<LocalComponentConverter>)
      ensures this.factories == factories
    {
      this.factories := factories;
    }

    /** True exactly when some converter of the chain accepts the source. */
    method CanConvert(source: ResolveContext) returns (b: bool)
      ensures b <==> exists i :: 0 <= i < |factories| && factories[i].canConvert(source)
    {
      for i := 0 to |factories|
        invariant forall j :: 0 <= j < i ==> !factories[j].canConvert(source)
      {
        if factories[i].canConvert(source) {
          return true;
        }
      }
      return false;
    }

    /**
     * Converts with the first converter that accepts the context, or fails
     * with the IllegalArgumentException that names the context's class.
     */
    method Convert(context: ResolveContext) returns (r: Result<LocalComponentMetadata, IllegalArgumentException>)
      ensures r == Conversion(factories, context)
    {
      for i := 0 to |factories|
        invariant forall j :: 0 <= j < i ==> !factories[j].canConvert(context)
      {
        if factories[i].canConvert(context) {
          FirstAcceptingAt(factories, context, i);
          return Success(factories[i].convert(context));
        }
      }
      return Failure(IllegalArgumentException(NoConverterMessage + ClassString(context)));
    }
  }

  /** The result object a component resolver fills in. */
  class BuildableComponentResolveResult {
    var metadata: Option<ComponentResolveMetadata>

    constructor ()
      ensures metadata == None
    {
      metadata := None;
    }

    method Resolved(m: ComponentResolveMetadata)
      modifies this
      ensures metadata == Some(m)
    {
      metadata := Some(m);
    }
  }

  /** Resolves a resolve context to a component by local conversion. */
  class DefaultResolveContextToComponentResolver {
    const localComponentFactory: ChainedLocalComponentConverter

    constructor (localComponentFactory: ChainedLocalComponentConverter)
      ensures this.localComponentFactory == localComponentFactory
    {
      this.localComponentFactory := localComponentFactory;
    }

    /**
     * Marks `result` resolved with the converted metadata; when no converter
     * accepts the context the exception propagates and `result` is untouched.
     */
    method Resolve(resolveContext: ResolveContext, result: BuildableComponentResolveResult)
      returns (outcome: Outcome<IllegalArgumentException>)
      modifies result
      ensures outcome.Fail? <==> !SomeAccepts(localComponentFactory.factories, resolveContext)
      ensures outcome.Fail? ==> outcome.error == Conversion(localComponentFactory.factories, resolveContext).error
      ensures outcome.Fail? ==> unchanged(result)
      ensures outcome.Pass? ==>
        result.metadata == Some(ResolveMetadataOf(Conversion(localComponentFactory.factories, resolveContext).value))
    {
      var converted := localComponentFactory.Convert(resolveContext);
      match converted
      case Failure(e) =>
        outcome := Fail(e);
      case Success(componentMetadata) =>
        result.Resolved(ResolveMetadataOf(componentMetadata));
        outcome := Pass;
    }
  }
}
