/** The visitor of the API-usage inspection: signatures of members, the decision whether a
    member is forbidden, and the rules for references, name-value pairs, `new` expressions
    and `@Override` methods. */
module ApiVisitor {
  import opened Wrappers
  import opened Text
  import opened ApiInspection

  /** A class as the signature rules see it; `parentIsClassOrFile` says whether its parent
      element is a class or a file. */
  datatype PsiClass = PsiClass(
    qualifiedName: Option<string>,
    isAnonymous: bool,
    parentIsClassOrFile: bool,
    containingClass: Option<PsiClass>)

  /** A member: a class, a field, a method (with the canonical texts of its parameter
      types) or any other member. */
  datatype Member =
    | ClassMember(cls: PsiClass)
    | Field(fieldName: string, fieldContainer: Option<PsiClass>)
    | Method(methodName: string, methodContainer: Option<PsiClass>, parameterTypes: seq<string>,
             isAnnotationMethod: bool)
    | OtherMember(otherContainer: Option<PsiClass>)

  /** `member.containingClass` */
  function ContainingClass(member: Member): Option<PsiClass> {
    match member
    case ClassMember(c) => c.containingClass
    case Field(_, container) => container
    case Method(_, container, _, _) => container
    case OtherMember(container) => container
  }

  /** `getSignature` of a class that may be missing. */
  function ClassSignature(c: Option<PsiClass>): Option<string> {
    if c.None? then None else c.value.qualifiedName
  }

  /** What the parameter loop of `getSignature` leaves in a buffer that held `before`. */
  function AfterParameterTypes(before: string, parameterTypes: seq<string>): string
    decreases |parameterTypes|
  {
    if parameterTypes == [] then before
    else AfterParameterTypes(before, parameterTypes[..|parameterTypes| - 1]) + parameterTypes[|parameterTypes| - 1] + ";"
  }

  /** `getSignature`, as a value. */
  function Signature(member: Member): Option<string> {
    match member
    case ClassMember(c) => c.qualifiedName
    case Field(name, container) =>
      if ClassSignature(container).None? then None else Some(ClassSignature(container).value + "#" + name)
    case Method(name, container, parameterTypes, _) =>
      if ClassSignature(container).None? then None
      else Some(AfterParameterTypes(ClassSignature(container).value + "#" + name + "(", parameterTypes) + ")")
    case OtherMember(_) => None
  }

  /** Each parameter type with its `;`, in order. */
  function ParameterEntries(parameterTypes: seq<string>): (r: seq<string>)
    ensures |r| == |parameterTypes| && forall k :: 0 <= k < |r| ==> r[k] == parameterTypes[k] + ";"
  {
    seq(|parameterTypes|, k requires 0 <= k < |parameterTypes| => parameterTypes[k] + ";")
  }

  /** The entries of a longer parameter list are those of the shorter one and one more. */
  lemma ParameterEntriesSnoc(parameterTypes: seq<string>)
    requires parameterTypes != []
    ensures ParameterEntries(parameterTypes) ==
      ParameterEntries(parameterTypes[..|parameterTypes| - 1]) + [parameterTypes[|parameterTypes| - 1] + ";"]
  {
    var entries, initEntries := ParameterEntries(parameterTypes), ParameterEntries(parameterTypes[..|parameterTypes| - 1]);
    assert forall k :: 0 <= k < |parameterTypes| - 1 ==> entries[k] == initEntries[k];
  }

  /** The parameter loop appends each parameter type followed by `;`. */
  lemma {:induction false} AfterParameterTypesEntries(before: string, parameterTypes: seq<string>)
    ensures AfterParameterTypes(before, parameterTypes) == before + Concat(ParameterEntries(parameterTypes))
    decreases |parameterTypes|
  {
    if parameterTypes != [] {
      var n := |parameterTypes|;
      var init := parameterTypes[..n - 1];
      AfterParameterTypesEntries(before, init);
      var entry := parameterTypes[n - 1] + ";";
      ParameterEntriesSnoc(parameterTypes);
      ConcatAppend(ParameterEntries(init), [entry]);
      assert Concat([entry]) == entry;
      AppendAssociative(before, Concat(ParameterEntries(init)), entry);
      AppendAssociative(AfterParameterTypes(before, init), parameterTypes[n - 1], ";");
    }
  }

  /** The signature forms: a class by its qualified name; a field as `C#name` and a method
      as `C#name(T1;T2;…)`, where `C` is the signature of the containing class and neither
      has a signature without it; nothing else has one. */
  lemma SignatureForms(member: Member)
    ensures member.ClassMember? ==> Signature(member) == member.cls.qualifiedName
    ensures member.OtherMember? ==> Signature(member) == None
    ensures (member.Field? || member.Method?) ==>
      (Signature(member).Some? <==> ClassSignature(ContainingClass(member)).Some?)
    ensures member.Field? && ClassSignature(member.fieldContainer).Some? ==>
      Signature(member) == Some(ClassSignature(member.fieldContainer).value + "#" + member.fieldName)
    ensures member.Method? && ClassSignature(member.methodContainer).Some? ==>
      Signature(member) == Some(ClassSignature(member.methodContainer).value + "#" + member.methodName + "("
        + Concat(ParameterEntries(member.parameterTypes)) + ")")
  {
    if member.Method? && ClassSignature(member.methodContainer).Some? {
      AfterParameterTypesEntries(ClassSignature(member.methodContainer).value + "#" + member.methodName + "(",
        member.parameterTypes);
    }
  }

  /** A method without parameters has the signature `C#name()`. */
  lemma ParameterlessMethodSignature(name: string, container: PsiClass, isAnnotationMethod: bool)
    requires container.qualifiedName.Some?
    ensures Signature(Method(name, Some(container), [], isAnnotationMethod)) ==
      Some(container.qualifiedName.value + "#" + name + "()")
  {
    var c := container.qualifiedName.value;
    assert c + "#" + name + "(" + ")" == c + "#" + name + "()";
  }

  /** `getSignature`: the method case fills a buffer in a loop over the parameter types. */
  method GetSignature(member: Member) returns (signature: Option<string>)
    ensures signature == Signature(member)
  {
    match member {
      case ClassMember(c) =>
        signature := c.qualifiedName;
      case Field(name, container) =>
        var containingClass := ClassSignature(container);
        signature := if containingClass.None? then None else Some(containingClass.value + "#" + name);
      case Method(name, container, parameterTypes, _) =>
        var containingClass := ClassSignature(container);
        if containingClass.None? {
          return None;
        }
        var buf := new StringBuilder();
        buf.Append(containingClass.value);
        buf.Append("#");
        buf.Append(name);
        buf.Append("(");
        assert buf.text == containingClass.value + "#" + name + "(";
        for i := 0 to |parameterTypes|
          invariant buf.text == AfterParameterTypes(containingClass.value + "#" + name + "(", parameterTypes[..i])
        {
          buf.Append(parameterTypes[i]);
          buf.Append(";");
          assert parameterTypes[..i + 1][..i] == parameterTypes[..i];
        }
        assert parameterTypes[..|parameterTypes|] == parameterTypes;
        buf.Append(")");
        signature := Some(buf.text);
      case OtherMember(_) =>
        signature := None;
    }
  }

  /** The guards of `isForbidden` that rule a member out before its signature is looked at:
      an anonymous class, a member of an anonymous class, a class whose parent is neither a
      class nor a file. */
  predicate Excluded(member: Member) {
    || (member.ClassMember? && member.cls.isAnonymous)
    || (ContainingClass(member).Some? && ContainingClass(member).value.isAnonymous)
    || (member.ClassMember? && !member.cls.parentIsClassOrFile)
  }

  /** `isForbidden`, given the inspection's set of forbidden references: the guards first,
      then the member's signature, if any, looked up in the set. */
  predicate IsForbidden(member: Member, forbidden: set<string>) {
    if Excluded(member) then false
    else
      match Signature(member)
      case None => false
      case Some(signature) => signature in forbidden
  }

  /** The definition of `IsForbidden` spelled out guard by guard: each guard on its own keeps
      a member from being forbidden, whatever the set holds; past the guards, a member is
      forbidden exactly when it has a signature in the set. */
  lemma ForbiddenIff(member: Member, forbidden: set<string>)
    ensures member.ClassMember? && member.cls.isAnonymous ==> !IsForbidden(member, forbidden)
    ensures ContainingClass(member).Some? && ContainingClass(member).value.isAnonymous ==> !IsForbidden(member, forbidden)
    ensures member.ClassMember? && !member.cls.parentIsClassOrFile ==> !IsForbidden(member, forbidden)
    ensures !Excluded(member) ==>
      (IsForbidden(member, forbidden) <==> Signature(member).Some? && Signature(member).value in forbidden)
  {
  }

  /** Forbidding more references forbids at least the same members; with nothing listed
      nothing is forbidden. */
  lemma ForbiddenMonotone(member: Member, forbidden: set<string>, more: set<string>)
    requires forbidden <= more
    ensures IsForbidden(member, forbidden) ==> IsForbidden(member, more)
    ensures !IsForbidden(member, {})
  {
  }

  /** Against the set the `items` setter builds, a member is forbidden exactly when no guard
      rules it out and some item's reference is its signature. */
  lemma ForbiddenByItems(member: Member, items: seq<Api>)
    ensures IsForbidden(member, References(items)) <==>
      !Excluded(member) && Signature(member).Some? &&
      exists k :: 0 <= k < |items| && items[k].reference == Signature(member).value
  {
    if Signature(member).Some? {
      ReferencesMembership(items, Signature(member).value);
    }
  }

  /** What the reference of an element resolves to: whether it is compiled, and the member
      it is, if it is one. */
  datatype Resolved = Resolved(compiled: bool, member: Option<Member>)

  /** The qualifier of a reference: an expression (with whether a class is found in its
      type) or something else. */
  datatype Qualifier = ExpressionQualifier(typeClassFound: bool) | OtherQualifier

  /** `isIgnored`: never. */
  const IsIgnored: bool := false

  /** `visitReferenceElement` reports a compiled, forbidden member referenced from a
      module, whatever class the qualifier or the context names. */
  predicate ReferenceReported(resolved: Option<Resolved>, hasModule: bool, forbidden: set<string>) {
    && resolved.Some? && resolved.value.compiled && resolved.value.member.Some?
    && hasModule && IsForbidden(resolved.value.member.value, forbidden)
  }

  /** `visitNameValuePair` checks a pair only when it resolves to a compiled annotation
      method and is inside a module. */
  predicate NameValuePairReported(hasReference: bool, resolved: Option<Resolved>, hasModule: bool,
                                  forbidden: set<string>)
  {
    && hasReference && resolved.Some? && resolved.value.compiled
    && resolved.value.member.Some? && resolved.value.member.value.Method?
    && resolved.value.member.value.isAnnotationMethod
    && hasModule && IsForbidden(resolved.value.member.value, forbidden)
  }

  /** A method that overrides something, as `visitMethod` sees it. */
  datatype SuperMethod = SuperMethod(compiled: bool, member: Member)

  /** The `@Override` annotation of a method: whether it is inside a module, and its name
      reference, if any. */
  datatype OverrideAnnotation = OverrideAnnotation(hasModule: bool, nameReference: Option<PsiElement>)

  /** `visitMethod` reports the `@Override` annotation of a non-constructor inside a module
      that has super methods, all compiled and forbidden. */
  predicate OverrideReported(isConstructor: bool, annotation: Option<OverrideAnnotation>,
                             superMethods: seq<SuperMethod>, forbidden: set<string>)
  {
    && !isConstructor && annotation.Some? && annotation.value.hasModule && |superMethods| > 0
    && forall k :: 0 <= k < |superMethods| ==>
         superMethods[k].compiled && IsForbidden(superMethods[k].member, forbidden)
  }

  /** One non-compiled or allowed super method is enough to keep the annotation unreported,
      and so is having none. */
  lemma OverrideNeedsAllSuperMethods(isConstructor: bool, annotation: Option<OverrideAnnotation>,
                                     superMethods: seq<SuperMethod>, forbidden: set<string>, k: int)
    requires 0 <= k < |superMethods|
    requires !superMethods[k].compiled || !IsForbidden(superMethods[k].member, forbidden)
    ensures !OverrideReported(isConstructor, annotation, superMethods, forbidden)
    ensures !OverrideReported(isConstructor, annotation, [], forbidden)
  {
  }

  /** `JavaHighlightApiVisitor`: reports to `holder` against the references `inspection`
      keeps. */
  class JavaHighlightApiVisitor {
    const holder: ProblemsHolder
    const inspection: HighlightApiUsageInspection

    constructor (holder: ProblemsHolder, inspection: HighlightApiUsageInspection)
      ensures this.holder == holder && this.inspection == inspection
    {
      this.holder := holder;
      this.inspection := inspection;
    }

    /** `visitReferenceElement` after the traversal of the children: `qualifier` and
        `enclosingClass` decide the class that `isIgnored` would consult. */
    method VisitReferenceElement(reference: PsiElement, resolved: Option<Resolved>, hasModule: bool,
                                 qualifier: Option<Qualifier>, enclosingClass: bool)
      modifies holder
      ensures holder.problems == old(holder.problems) +
        (if ReferenceReported(resolved, hasModule, inspection.forbiddenApiReferences) then ErrorProblems(Some(reference)) else [])
    {
      if resolved.Some? && resolved.value.compiled && resolved.value.member.Some? {
        if hasModule {
          if IsForbidden(resolved.value.member.value, inspection.forbiddenApiReferences) {
            var psiClassFound := false;
            if qualifier.Some? {
              if qualifier.value.ExpressionQualifier? {
                psiClassFound := qualifier.value.typeClassFound;
              }
            } else {
              psiClassFound := enclosingClass;
            }
            if psiClassFound && IsIgnored {
              return;
            }
            RegisterError(holder, Some(reference));
          }
        }
      }
    }

    /** `visitNameValuePair` after the traversal of the children; the problem goes to the
        pair's name identifier, or to the pair when it has none. */
    method VisitNameValuePair(pair: PsiElement, nameIdentifier: Option<PsiElement>, hasReference: bool,
                              resolved: Option<Resolved>, hasModule: bool)
      modifies holder
      ensures holder.problems == old(holder.problems) +
        (if NameValuePairReported(hasReference, resolved, hasModule, inspection.forbiddenApiReferences)
         then ErrorProblems(Some(nameIdentifier.GetOr(pair))) else [])
    {
      if !hasReference {
        return;
      }
      if !(resolved.Some? && resolved.value.compiled && resolved.value.member.Some?
           && resolved.value.member.value.Method? && resolved.value.member.value.isAnnotationMethod) {
        return;
      }
      if !hasModule {
        return;
      }
      if IsForbidden(resolved.value.member.value, inspection.forbiddenApiReferences) {
        RegisterError(holder, Some(nameIdentifier.GetOr(pair)));
      }
    }

    /** `visitNewExpression` after the traversal of the children: a compiled, forbidden
        constructor is reported at the class reference of the expression. */
    method VisitNewExpression(resolvedConstructor: Option<Resolved>, hasModule: bool, classReference: Option<PsiElement>)
      modifies holder
      ensures holder.problems == old(holder.problems) +
        (if ReferenceReported(resolvedConstructor, hasModule, inspection.forbiddenApiReferences)
         then ErrorProblems(classReference) else [])
    {
      if !hasModule {
        return;
      }
      if resolvedConstructor.Some? && resolvedConstructor.value.compiled && resolvedConstructor.value.member.Some? {
        if IsForbidden(resolvedConstructor.value.member.value, inspection.forbiddenApiReferences) {
          RegisterError(holder, classReference);
        }
      }
    }

    /** `visitMethod` after the traversal of the children: the loop over the super methods
        gives up at the first one that is not compiled or not forbidden. */
    method VisitMethod(isConstructor: bool, annotation: Option<OverrideAnnotation>, superMethods: seq<SuperMethod>)
      modifies holder
      ensures holder.problems == old(holder.problems) +
        (if OverrideReported(isConstructor, annotation, superMethods, inspection.forbiddenApiReferences)
         then ErrorProblems(annotation.value.nameReference) else [])
    {
      var found := if !isConstructor then annotation else None;
      if found.Some? {
        if found.value.hasModule {
          for i := 0 to |superMethods|
            invariant forall j :: 0 <= j < i ==>
              superMethods[j].compiled && IsForbidden(superMethods[j].member, inspection.forbiddenApiReferences)
          {
            if superMethods[i].compiled {
              if !IsForbidden(superMethods[i].member, inspection.forbiddenApiReferences) {
                return;
              }
            } else {
              return;
            }
          }
          if |superMethods| > 0 {
            RegisterError(holder, found.value.nameReference);
          }
        }
      }
    }
  }
}
