/** The inspection that highlights uses of listed APIs: its list of `Api` items, the
    set of their references it keeps in step with the list, and the guard of
    `registerError`. */
module ApiInspection {
  import opened Wrappers

  /** An element of the program under inspection; `inProject` is what its manager's
      `isInProject` answers for it. */
  datatype PsiElement = PsiElement(id: nat, inProject: bool)

  /** `HighlightAPIUsageInspection.isInProject` */
  predicate IsInProject(element: PsiElement) {
    element.inProject
  }

  /** `ProblemsHolder`: the problems registered so far, with their descriptions. */
  class ProblemsHolder {
    var problems: seq<(PsiElement, string)>

    constructor ()
      ensures problems == []
    {
      problems := [];
    }

    /** `registerProblem(element, description)` */
    method RegisterProblem(element: PsiElement, description: string)
      modifies this
      ensures problems == old(problems) + [(element, description)]
    {
      problems := problems + [(element, description)];
    }
  }

  /** The problems `registerError` registers for a reference that may be missing. */
  function ErrorProblems(reference: Option<PsiElement>): (r: seq<(PsiElement, string)>)
    ensures r != [] <==> reference.Some? && IsInProject(reference.value)
    ensures r != [] ==> r == [(reference.value, "Deprecated API")]
  {
    if reference.Some? && IsInProject(reference.value) then [(reference.value, "Deprecated API")] else []
  }

  /** `registerError`: a "Deprecated API" problem, only for a present element of the project. */
  method RegisterError(holder: ProblemsHolder, reference: Option<PsiElement>)
    modifies holder
    ensures holder.problems == old(holder.problems) + ErrorProblems(reference)
  {
    if reference.Some? && IsInProject(reference.value) {
      holder.RegisterProblem(reference.value, "Deprecated API");
    }
  }

  /** `HighlightAPIUsageInspection.Api` */
  datatype Api = Api(
    reference: string,
    since: Option<string>,
    reason: Option<string>,
    level: Option<string>,
    replaceReference: Option<string>)

  /** `Api(reference)`: the constructor with every other parameter at its default; the
      reference itself defaults to the empty text. */
  function ApiOf(reference: string := ""): (a: Api)
    ensures a.reference == reference
    ensures a.since == None && a.reason == None && a.level == None && a.replaceReference == None
  {
    Api(reference, None, None, None, None)
  }

  /** `Api()`: with no arguments at all, the reference is empty and everything else null. */
  lemma ApiDefaults()
    ensures ApiOf() == Api("", None, None, None, None)
    ensures ApiOf().reference == ""
  {
  }

  /** The references of `items`, as `mapTo` collects them. */
  function References(items: seq<Api>): set<string>
    decreases |items|
  {
    if items == [] then {} else References(items[..|items| - 1]) + {items[|items| - 1].reference}
  }

  /** The references are exactly those of some item. */
  lemma {:induction false} ReferencesMembership(items: seq<Api>, s: string)
    ensures s in References(items) <==> exists k :: 0 <= k < |items| && items[k].reference == s
    decreases |items|
  {
    if items != [] {
      var init := items[..|items| - 1];
      ReferencesMembership(init, s);
      if s in References(init) {
        var k :| 0 <= k < |init| && init[k].reference == s;
        assert items[k].reference == s;
      }
      if exists k :: 0 <= k < |items| && items[k].reference == s {
        var k :| 0 <= k < |items| && items[k].reference == s;
        if k < |init| {
          assert init[k].reference == s;
        }
      }
    }
  }

  /** `HighlightAPIUsageInspection` */
  class HighlightApiUsageInspection {
    var items: seq<Api>
    var suppressInPackagePattern: string
    var forbiddenApiReferences: set<string>

    /** The set holds the references of the items: what the `items` setter establishes. */
    ghost predicate InSync()
      reads this
    {
      forbiddenApiReferences == References(items)
    }

    /** The initial item is assigned to the backing field, not through the setter, so
        it starts out with the set empty and out of step with the list. */
    constructor ()
      ensures items == [ApiOf("java.lang.String#isEmpty()")]
      ensures suppressInPackagePattern == "compat"
      ensures forbiddenApiReferences == {}
      ensures !InSync()
    {
      items := [ApiOf("java.lang.String#isEmpty()")];
      suppressInPackagePattern := "compat";
      forbiddenApiReferences := {};
      new;
      assert "java.lang.String#isEmpty()" in References(items);
    }

    /** `isHighlightSignature` */
    predicate IsHighlightSignature(signature: string)
      reads this
    {
      signature in forbiddenApiReferences
    }

    /** The `items` setter: the field takes the new list, and the set is cleared and
        refilled with the new list's references. */
    method SetItems(value: seq<Api>)
      modifies this
      ensures items == value && suppressInPackagePattern == old(suppressInPackagePattern)
      ensures forbiddenApiReferences == References(value) && InSync()
      ensures forall s :: IsHighlightSignature(s) <==> exists k :: 0 <= k < |value| && value[k].reference == s
    {
      items := value;
      forbiddenApiReferences := {};
      for i := 0 to |value|
        invariant items == value && suppressInPackagePattern == old(suppressInPackagePattern)
        invariant forbiddenApiReferences == References(value[..i])
      {
        forbiddenApiReferences := forbiddenApiReferences + {value[i].reference};
        assert value[..i + 1][..i] == value[..i];
      }
      assert value[..|value|] == value;
      forall s
        ensures IsHighlightSignature(s) <==> exists k :: 0 <= k < |value| && value[k].reference == s
      {
        ReferencesMembership(value, s);
      }
    }
  }

  /** A freshly made inspection highlights nothing, not even the signature of its own
      initial item, until its items are assigned. */
  method InitialInspection() returns (initial: bool, afterAssigning: bool)
    ensures !initial && afterAssigning
  {
    var inspection := new HighlightApiUsageInspection();
    initial := inspection.IsHighlightSignature("java.lang.String#isEmpty()");
    inspection.SetItems(inspection.items);
    afterAssigning := inspection.IsHighlightSignature("java.lang.String#isEmpty()");
    assert inspection.items[0].reference == "java.lang.String#isEmpty()";
  }
}
