/**
 * Permission policies: which classes become vertices and which relations
 * become edges.
 */
module Permission {
  import opened Graph

  /**
   * The two queries every permission provider answers: whether a class is
   * exposed, and whether property `prop` of class `from` may relate to `to`.
   */
  datatype Policy = Policy(
    isPermitted: ClassName -> bool,
    isRelationPermitted: (ClassName, PropertyName, ClassName) -> bool)

  /** The default allow-list: the date-time interface and the date-interval class. */
  const AllowableTypes: seq<ClassName> := ["DateTimeInterface", "DateInterval"]

  /** PHP's `in_array`: a left-to-right scan of the list. */
  function InArray(needle: ClassName, haystack: seq<ClassName>): (r: bool)
    ensures r <==> needle in haystack
  {
    if haystack == [] then false
    else needle == haystack[0] || InArray(needle, haystack[1..])
  }

  /**
   * The default provider. Its allow-list is fixed when it is created and
   * neither query changes it: a datatype value cannot change.
   */
  datatype DefaultPermissionProvider = DefaultPermissionProvider(allowableTypes: seq<ClassName>)
  {
    /** A class is exposed exactly when it is on the allow-list. */
    function IsPermitted(classFrom: ClassName): (r: bool)
      ensures r <==> classFrom in allowableTypes
    {
      InArray(classFrom, allowableTypes)
    }

    /** A relation is exposed exactly when its target class is on the allow-list. */
    function IsRelationPermitted(classFrom: ClassName, propertyName: PropertyName, classTo: ClassName): (r: bool)
      ensures r <==> classTo in allowableTypes
    {
      InArray(classTo, allowableTypes)
    }

    /** This provider seen through the two-query interface. */
    function AsPolicy(): (p: Policy)
      ensures forall c :: p.isPermitted(c) == IsPermitted(c)
      ensures forall f, n, t :: p.isRelationPermitted(f, n, t) == IsRelationPermitted(f, n, t)
    {
      Policy(c => IsPermitted(c), (f, n, t) => IsRelationPermitted(f, n, t))
    }
  }

  /** The provider built without arguments. */
  function DefaultProvider(): (d: DefaultPermissionProvider)
    ensures d.allowableTypes == AllowableTypes
  {
    DefaultPermissionProvider(AllowableTypes)
  }

  /** The relation query looks only at the target class. */
  lemma RelationIgnoresSource(d: DefaultPermissionProvider, from1: ClassName, prop1: PropertyName,
                              from2: ClassName, prop2: PropertyName, to: ClassName)
    ensures d.IsRelationPermitted(from1, prop1, to) == d.IsRelationPermitted(from2, prop2, to)
  {
  }

  /** The provider built without arguments exposes exactly the two date classes. */
  lemma DefaultProviderPermits(c: ClassName)
    ensures DefaultProvider().IsPermitted(c) <==> c == "DateTimeInterface" || c == "DateInterval"
  {
  }
}
