/**
 * The resource EL resolver of JavaServer Faces 2.0 (JSR 314, sections
 * 5.6.1.3 and 5.6.2.4): `#{resource['library:name']}` resolves to the request
 * path of the named resource. The reference is split on its single `:`; a
 * second `:` is an error, and the library name `this` stands for the library
 * of the composite component being evaluated.
 *
 * The resource handler's `createResource`, the resource's request path and the
 * composite-component lookup are calls into code outside this model; they are
 * inputs here (a function carried by the base object, and a value carried by
 * the EL context).
 */
module ResourceResolution {
  import opened Wrappers

  /** The library name that designates the current composite component's library. */
  const CC_LIBRARY_THIS: string := "this"

  /** A resource as this resolver sees it: its library, and its request path (Java null allowed). */
  datatype Resource = Resource(libraryName: Option<string>, requestPath: Option<string>)

  /**
   * The `base` object handed to the resolver: null, a resource handler (with
   * its `createResource(name, library)`), or any other object.
   */
  datatype Base =
    | NullBase
    | ResourceHandler(createResource: (string, Option<string>) -> Option<Resource>)
    | OtherBase

  /** The `property` object: null, a string, or an object of another class. */
  datatype Property = NullProperty | Text(text: string) | OtherProperty

  /** The only class getCommonPropertyType reports. */
  datatype PropertyType = ObjectClass

  /** How resolution can fail. */
  datatype ResolveError =
    | Malformed(reference: string)   // ELException "Malformed resource reference ..."
    | NullPointer                    // no composite component (or resource) behind `this`
    | ClassCast                      // a property that is not a string

  /** A reference split into its library (absent when there is no `:`) and its resource name. */
  datatype ResourceReference = ResourceReference(library: Option<string>, name: string)

  /** The EL context: the resolved flag this resolver sets, and what the composite-component lookup yields. */
  class ELContext {
    var propertyResolved: bool
    /** The resource of the composite component at the current location, if there is one. */
    const compositeResource: Option<Resource>

    constructor (compositeResource: Option<Resource>)
      ensures !propertyResolved && this.compositeResource == compositeResource
    {
      this.propertyResolved := false;
      this.compositeResource := compositeResource;
    }
  }

  /** Java `s.indexOf(c)`: the first position of c, or -1. */
  function IndexOf(s: string, c: char): (i: int)
    ensures -1 <= i < |s|
    ensures i == -1 <==> c !in s
    ensures 0 <= i ==> s[i] == c && c !in s[..i]
  {
    if s == [] then -1
    else if s[0] == c then 0
    else
      var j := IndexOf(s[1..], c);
      if j == -1 then -1 else (assert s[..j + 1] == [s[0]] + s[1..][..j]; j + 1)
  }

  /** Java `s.lastIndexOf(c)`: the last position of c, or -1. */
  function LastIndexOf(s: string, c: char): (i: int)
    ensures -1 <= i < |s|
    ensures i == -1 <==> c !in s
    ensures 0 <= i ==> s[i] == c && c !in s[i + 1..]
  {
    if s == [] then -1
    else if s[|s| - 1] == c then |s| - 1
    else
      var j := LastIndexOf(s[..|s| - 1], c);
      assert j != -1 ==> s[j + 1..] == s[..|s| - 1][j + 1..] + [s[|s| - 1]];
      assert j == -1 ==> s == s[..|s| - 1] + [s[|s| - 1]];
      j
  }

  /** The reference holds at least two colons. */
  predicate TwoColons(reference: string)
  {
    exists i, j :: 0 <= i < j < |reference| && reference[i] == ':' && reference[j] == ':'
  }

  /**
   * Splits a reference on its `:`: no colon means the whole reference is the
   * name; exactly one colon separates library and name; more is malformed.
   */
  function SplitReference(reference: string): (r: Result<ResourceReference, ResolveError>)
    ensures r.Failure? <==> TwoColons(reference)
    ensures r.Failure? ==> r.error == Malformed(reference)
    ensures r.Success? && r.value.library.None? ==> ':' !in reference && r.value.name == reference
    ensures r.Success? && r.value.library.Some? ==>
      ':' !in r.value.library.value && ':' !in r.value.name &&
      reference == r.value.library.value + ":" + r.value.name
  {
    var colonIndex := IndexOf(reference, ':');
    if colonIndex == -1 then
      Success(ResourceReference(None, reference))
    else if LastIndexOf(reference, ':') != colonIndex then
      Failure(Malformed(reference))
    else
      var library, name := reference[..colonIndex], reference[colonIndex + 1..];
      assert reference == library + ":" + name;
      Success(ResourceReference(Some(library), name))
  }

  /** The reference a split describes, rebuilt. */
  function Join(rr: ResourceReference): (reference: string)
    ensures rr.library.None? ==> reference == rr.name
    ensures rr.library.Some? ==> |reference| == |rr.library.value| + 1 + |rr.name|
  {
    match rr.library
    case None => rr.name
    case Some(library) => library + ":" + rr.name
  }

  /** Round trip: a colon-free library and name joined by `:` split back into themselves. */
  lemma SplitJoin(library: string, name: string)
    requires ':' !in library && ':' !in name
    ensures SplitReference(library + ":" + name) == Success(ResourceReference(Some(library), name))
  {
    var reference := library + ":" + name;
    assert reference[|library|] == ':';
    assert reference[..|library|] == library;
    assert reference[|library| + 1..] == name;
  }

  /** Round trip the other way: a reference that splits is rebuilt exactly by Join. */
  lemma JoinSplit(reference: string)
    requires SplitReference(reference).Success?
    ensures Join(SplitReference(reference).value) == reference
  {
  }

  /** A colon-free reference is a resource name without a library. */
  lemma NoColonNoLibrary(reference: string)
    requires ':' !in reference
    ensures SplitReference(reference) == Success(ResourceReference(None, reference))
  {
  }

  /**
   * The resource a reference designates: the split, with the library `this`
   * replaced by the library of the composite component's resource.
   */
  function LocateResource(reference: string, compositeResource: Option<Resource>): (r: Result<ResourceReference, ResolveError>)
    ensures SplitReference(reference).Failure? ==> r == SplitReference(reference)
    ensures SplitReference(reference).Success? && SplitReference(reference).value.library != Some(CC_LIBRARY_THIS) ==>
      r == SplitReference(reference)
    ensures SplitReference(reference).Success? && SplitReference(reference).value.library == Some(CC_LIBRARY_THIS) ==>
      if compositeResource.None? then r == Failure(NullPointer)
      else r == Success(ResourceReference(compositeResource.value.libraryName, SplitReference(reference).value.name))
  {
    var split := SplitReference(reference);
    if split.Failure? then split
    else if split.value.library == Some(CC_LIBRARY_THIS) then
      match compositeResource
      case None => Failure(NullPointer)
      case Some(ccResource) => Success(split.value.(library := ccResource.libraryName))
    else split
  }

  /** The composite-component library stands in for `this`, whatever the composite component's library is. */
  lemma ThisIsCompositeLibrary(name: string, ccResource: Resource)
    requires ':' !in name
    ensures LocateResource(CC_LIBRARY_THIS + ":" + name, Some(ccResource))
         == Success(ResourceReference(ccResource.libraryName, name))
  {
    SplitJoin(CC_LIBRARY_THIS, name);
  }

  /** Any other library is passed through as written. */
  lemma OtherLibraryKept(library: string, name: string, compositeResource: Option<Resource>)
    requires ':' !in library && ':' !in name && library != CC_LIBRARY_THIS
    ensures LocateResource(library + ":" + name, compositeResource) == Success(ResourceReference(Some(library), name))
  {
    SplitJoin(library, name);
  }

  /** Whether this resolver handles the pair at all: a non-null resource-handler base and a non-null property. */
  predicate Handles(base: Base, property: Property)
  {
    base.ResourceHandler? && !property.NullProperty?
  }

  /** The class common to the properties this resolver accepts: Object for a null base, else null. */
  function GetCommonPropertyType(base: Base): (r: Option<PropertyType>)
    ensures r.Some? <==> base.NullBase?
  {
    if base.NullBase? then Some(ObjectClass) else None
  }

  /** No feature descriptors are offered. */
  function GetFeatureDescriptors(base: Base): (r: Option<seq<string>>)
    ensures r.None?
  {
    None
  }

  /** No type is ever reported. */
  function GetType(base: Base, property: Property): (r: Option<PropertyType>)
    ensures r.None?
  {
    None
  }

  /** Resource references are never writable. */
  function IsReadOnly(base: Base, property: Property): (r: bool)
    ensures !r
  {
    false
  }

  /** Writing has no effect. */
  method SetValue(context: ELContext, base: Base, property: Property, value: string)
    ensures unchanged(context)
  {
  }

  /**
   * `getValue`: for a resource-handler base and a string property, locates
   * the resource, marks the property resolved and yields its request path
   * (None for Java null when there is no such resource). Anything else is
   * left to other resolvers: None, and the flag is not touched. A malformed
   * reference or a missing composite component is an error raised before the
   * flag is set.
   */
  method GetValue(context: ELContext, base: Base, property: Property) returns (r: Result<Option<string>, ResolveError>)
    modifies context
    ensures !Handles(base, property) ==> r == Success(None) && context.propertyResolved == old(context.propertyResolved)
    ensures Handles(base, property) && property.OtherProperty? ==>
      r == Failure(ClassCast) && context.propertyResolved == old(context.propertyResolved)
    ensures Handles(base, property) && property.Text? ==>
      var located := LocateResource(property.text, context.compositeResource);
      && (located.Failure? ==> r == Failure(located.error) && context.propertyResolved == old(context.propertyResolved))
      && (located.Success? ==>
            && context.propertyResolved
            && r == Success(match base.createResource(located.value.name, located.value.library)
                            case None => None
                            case Some(resource) => resource.requestPath))
  {
    if !Handles(base, property) {
      return Success(None);
    }
    if property.OtherProperty? {
      return Failure(ClassCast);
    }
    var reference := property.text;
    var located := LocateResource(reference, context.compositeResource);
    if located.Failure? {
      return Failure(located.error);
    }
    var resource := base.createResource(located.value.name, located.value.library);
    context.propertyResolved := true;
    if resource.Some? {
      return Success(resource.value.requestPath);
    }
    return Success(None);
  }
}
