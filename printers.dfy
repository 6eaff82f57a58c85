/** The reference printer of `kotlinp`: flag tables, text of types, type parameters, value
    parameters, functions, properties, type aliases and annotations, and the visitor
    objects that collect these pieces and write them out at `visitEnd`. */
module Printers {
  import opened Wrappers
  import opened Text
  import opened ReadUtils
  import ClassFiles

  // ---------------------------------------------------------------------------------
  // Flags and the flag tables

  /** The `Flags.*` predicates the printer consults. */
  datatype MetadataFlag =
    | IsInternal | IsPrivate | IsPrivateToThis | IsProtected | IsPublic
    | IsFinal | IsOpen | IsAbstract | IsSealed
    | ClassIsInner | ClassIsData | ClassIsExternal | ClassIsExpect | ClassIsInline
    | ClassIsClass | ClassIsInterface | ClassIsEnumClass | ClassIsEnumEntry
    | ClassIsAnnotationClass | ClassIsObject | ClassIsCompanionObject
    | ConstructorIsPrimary
    | FunctionIsDeclaration | FunctionIsFakeOverride | FunctionIsDelegation | FunctionIsSynthesized
    | FunctionIsOperator | FunctionIsInfix | FunctionIsInline | FunctionIsTailrec
    | FunctionIsExternal | FunctionIsSuspend | FunctionIsExpect
    | PropertyIsDeclaration | PropertyIsFakeOverride | PropertyIsDelegation | PropertyIsSynthesized
    | PropertyIsConst | PropertyIsLateinit | PropertyIsExternal | PropertyIsDelegated | PropertyIsExpect
    | PropertyIsVar | PropertyHasConstant | PropertyHasGetter | PropertyHasSetter
    | AccessorIsNotDefault | AccessorIsExternal | AccessorIsInline
    | ValueParameterIsCrossinline | ValueParameterIsNoinline | ValueParameterDeclaresDefaultValue
    | TypeParameterIsReified
    | TypeIsSuspend | TypeIsNullable

  /** A flags word, given by the set of `Flags.*` predicates that hold of it (the bit layout
      behind the predicates is not part of this model). */
  type Flags = set<MetadataFlag>

  /** An insertion-ordered `Map<MetadataFlag, String>`. */
  type FlagTable = seq<(MetadataFlag, string)>

  const VisibilityFlags: FlagTable := [
    (IsInternal, "internal"), (IsPrivate, "private"), (IsPrivateToThis, "private"),
    (IsProtected, "protected"), (IsPublic, "public")]

  const CommonFlags: FlagTable := VisibilityFlags + [
    (IsFinal, "final"), (IsOpen, "open"), (IsAbstract, "abstract"), (IsSealed, "sealed")]

  const ClassFlags: FlagTable := CommonFlags + [
    (ClassIsInner, "inner"), (ClassIsData, "data"), (ClassIsExternal, "external"),
    (ClassIsExpect, "expect"), (ClassIsInline, "inline"),
    (ClassIsClass, "class"), (ClassIsInterface, "interface"), (ClassIsEnumClass, "enum class"),
    (ClassIsEnumEntry, "enum entry"), (ClassIsAnnotationClass, "annotation class"),
    (ClassIsObject, "object"), (ClassIsCompanionObject, "companion object")]

  const ConstructorFlags: FlagTable := CommonFlags + [(ConstructorIsPrimary, "/* primary */")]

  const FunctionFlags: FlagTable := CommonFlags + [
    (FunctionIsDeclaration, ""), (FunctionIsFakeOverride, "/* fake override */"),
    (FunctionIsDelegation, "/* delegation */"), (FunctionIsSynthesized, "/* synthesized */"),
    (FunctionIsOperator, "operator"), (FunctionIsInfix, "infix"), (FunctionIsInline, "inline"),
    (FunctionIsTailrec, "tailrec"), (FunctionIsExternal, "external"), (FunctionIsSuspend, "suspend"),
    (FunctionIsExpect, "expect")]

  const PropertyFlags: FlagTable := CommonFlags + [
    (PropertyIsDeclaration, ""), (PropertyIsFakeOverride, "/* fake override */"),
    (PropertyIsDelegation, "/* delegation */"), (PropertyIsSynthesized, "/* synthesized */"),
    (PropertyIsConst, "const"), (PropertyIsLateinit, "lateinit"), (PropertyIsExternal, "external"),
    (PropertyIsDelegated, "/* delegated */"), (PropertyIsExpect, "expect")]

  const PropertyAccessorFlags: FlagTable := CommonFlags + [
    (AccessorIsNotDefault, "/* non-default */"), (AccessorIsExternal, "external"), (AccessorIsInline, "inline")]

  const ValueParameterFlags: FlagTable := [
    (ValueParameterIsCrossinline, "crossinline"), (ValueParameterIsNoinline, "noinline")]

  const TypeParameterFlags: FlagTable := [(TypeParameterIsReified, "reified")]

  const TypeFlags: FlagTable := [(TypeIsSuspend, "suspend")]

  /** What one table entry contributes: its text and a space when the flag holds, where
      an empty text gets no space. */
  function EntryText(flags: Flags, entry: (MetadataFlag, string)): string {
    if entry.0 in flags then entry.1 + (if entry.1 == "" then "" else " ") else ""
  }

  /** The text `appendFlags` adds: the entries' contributions in table order. */
  function FlagsText(flags: Flags, table: FlagTable): string {
    if table == [] then "" else EntryText(flags, table[0]) + FlagsText(flags, table[1..])
  }

  /** The flags text of two tables one after the other is their two texts one after the other. */
  lemma {:induction false} FlagsTextAppend(flags: Flags, a: FlagTable, b: FlagTable)
    ensures FlagsText(flags, a + b) == FlagsText(flags, a) + FlagsText(flags, b)
  {
    if a == [] {
      assert a + b == b;
    } else {
      assert (a + b)[1..] == a[1..] + b;
      FlagsTextAppend(flags, a[1..], b);
    }
  }

  /** One more entry adds its own contribution. */
  lemma FlagsTextSnoc(flags: Flags, table: FlagTable, i: nat)
    requires i < |table|
    ensures FlagsText(flags, table[..i + 1]) == FlagsText(flags, table[..i]) + EntryText(flags, table[i])
  {
    FlagsTextAppend(flags, table[..i], [table[i]]);
    assert table[..i + 1] == table[..i] + [table[i]];
  }

  /** An entry with empty text adds nothing, wherever it stands and whether or not it holds. */
  lemma FlagsTextEmptyEntry(flags: Flags, before: FlagTable, after: FlagTable, flag: MetadataFlag)
    ensures FlagsText(flags, before + [(flag, "")] + after) == FlagsText(flags, before + after)
  {
    FlagsTextAppend(flags, before + [(flag, "")], after);
    FlagsTextAppend(flags, before, [(flag, "")]);
    FlagsTextAppend(flags, before, after);
  }

  /** The flags text is empty exactly when no entry with a non-empty text holds; otherwise
      it ends with a space. */
  lemma {:induction false} FlagsTextEmpty(flags: Flags, table: FlagTable)
    ensures FlagsText(flags, table) == "" <==>
      forall i :: 0 <= i < |table| ==> table[i].0 !in flags || table[i].1 == ""
    ensures FlagsText(flags, table) != "" ==> FlagsText(flags, table)[|FlagsText(flags, table)| - 1] == ' '
  {
    if table != [] {
      FlagsTextEmpty(flags, table[1..]);
      assert forall i :: 1 <= i < |table| ==> table[i] == table[1..][i - 1];
    }
  }

  /** One entry of `appendFlags`. */
  method AppendEntry(sb: StringBuilder, flags: Flags, entry: (MetadataFlag, string))
    modifies sb
    ensures sb.text == old(sb.text) + EntryText(flags, entry)
  {
    var (modifier, s) := entry;
    if modifier in flags {
      sb.Append(s);
      if s != "" {
        sb.Append(" ");
      }
    }
  }

  /** `StringBuilder.appendFlags`: appends, in table order, the text of each entry whose
      flag holds. */
  method AppendFlags(sb: StringBuilder, flags: Flags, table: FlagTable)
    modifies sb
    ensures sb.text == old(sb.text) + FlagsText(flags, table)
  {
    for i := 0 to |table|
      invariant sb.text == old(sb.text) + FlagsText(flags, table[..i])
    {
      AppendEntry(sb, flags, table[i]);
      FlagsTextSnoc(flags, table, i);
      assert sb.text == old(sb.text) + (FlagsText(flags, table[..i]) + EntryText(flags, table[i]));
    }
    assert table[..|table|] == table;
  }

  // ---------------------------------------------------------------------------------
  // Annotations

  /** `Char.toString()` of a UTF-16 code unit; a lone surrogate has no Dafny `char` and is
      shown as U+FFFD. */
  function CharText(c: UInt16): char {
    if 0xD800 <= c < 0xE000 then '\U{FFFD}' else c as char
  }

  /** `renderAnnotation`: the class name, then `(name = value, ...)` only when there are arguments. */
  function RenderAnnotation(a: Annotation): string {
    a.className + (if a.arguments == [] then "" else "(" + Join(RenderEntries(a.arguments), ", ") + ")")
  }

  /** The `name = value` texts of an annotation's arguments, in map order. */
  function RenderEntries(entries: seq<(string, AnnotationArgument)>): (r: seq<string>)
    ensures |r| == |entries|
    decreases entries
  {
    if entries == [] then []
    else
      var entry := entries[0];
      assert entry.1 < entry;
      [entry.0 + " = " + RenderAnnotationArgument(entry.1)] + RenderEntries(entries[1..])
  }

  /** `renderAnnotationArgument`: Kotlin literal syntax for each constant. */
  function RenderAnnotationArgument(arg: AnnotationArgument): string
    decreases arg
  {
    match arg
    case ByteValue(v) => IntToString(v) + ".toByte()"
    case CharValue(v) => "'" + [CharText(v)] + "'"
    case ShortValue(v) => IntToString(v) + ".toShort()"
    case IntValue(v) => IntToString(v)
    case LongValue(v) => IntToString(v) + "L"
    case FloatValue(v) => v.text + "f"
    case DoubleValue(v) => v.text
    case BooleanValue(v) => if v then "true" else "false"
    case StringValue(v) => "\"" + v + "\""
    case KClassValue(n) => n + "::class"
    case EnumValue(c, e) => c + "." + e
    case AnnotationValue(a) => a.className + "(" + Join(RenderEntries(a.arguments), ", ") + ")"
    case ArrayValue(elements) => "[" + Join(RenderElements(elements), ", ") + "]"
  }

  /** The texts of an array's elements, in order. */
  function RenderElements(elements: seq<AnnotationArgument>): (r: seq<string>)
    ensures |r| == |elements|
    decreases elements
  {
    if elements == [] then [] else [RenderAnnotationArgument(elements[0])] + RenderElements(elements[1..])
  }

  /** A top-level annotation without arguments is just its class name, with no parentheses,
      while the same annotation nested as an argument always gets `(...)`. */
  lemma NestedAnnotationAlwaysParenthesized(a: Annotation)
    ensures RenderAnnotation(a) == a.className <==> a.arguments == []
    ensures RenderAnnotationArgument(AnnotationValue(a)) ==
      if a.arguments == [] then RenderAnnotation(a) + "()" else RenderAnnotation(a)
  {
    if a.arguments != [] {
      assert |RenderAnnotation(a)| > |a.className|;
    }
  }

  /** The literal forms of the constants. */
  lemma ArgumentLiteralForms(arg: AnnotationArgument)
    ensures arg.ByteValue? ==> RenderAnnotationArgument(arg) == IntToString(arg.byteValue) + ".toByte()"
    ensures arg.ShortValue? ==> RenderAnnotationArgument(arg) == IntToString(arg.shortValue) + ".toShort()"
    ensures arg.LongValue? ==> RenderAnnotationArgument(arg) == IntToString(arg.longValue) + "L"
    ensures arg.CharValue? ==>
      |RenderAnnotationArgument(arg)| == 3 && RenderAnnotationArgument(arg)[0] == RenderAnnotationArgument(arg)[2] == '\''
    ensures arg.StringValue? ==> RenderAnnotationArgument(arg) == "\"" + arg.stringValue + "\""
    ensures arg.KClassValue? ==> RenderAnnotationArgument(arg) == arg.className + "::class"
  {
  }

  /** Element `k` of an array renders as `renderAnnotationArgument(elements[k])`. */
  lemma {:induction false} RenderElementsContents(elements: seq<AnnotationArgument>)
    ensures forall k :: 0 <= k < |elements| ==> RenderElements(elements)[k] == RenderAnnotationArgument(elements[k])
  {
    if elements != [] {
      RenderElementsContents(elements[1..]);
    }
  }

  /** Entry `k` of an annotation renders as its name, ` = ` and its value's literal. */
  lemma {:induction false} RenderEntriesContents(entries: seq<(string, AnnotationArgument)>)
    ensures forall k :: 0 <= k < |entries| ==>
      RenderEntries(entries)[k] == entries[k].0 + " = " + RenderAnnotationArgument(entries[k].1)
  {
    if entries != [] {
      RenderEntriesContents(entries[1..]);
    }
  }

  /** An array is `[e1, ..., en]`: the literals of its elements, in order, between brackets
      and separated by `, `. */
  lemma ArrayLiteralForms(elements: seq<AnnotationArgument>)
    ensures RenderAnnotationArgument(ArrayValue(elements)) ==
      "[" + Join(seq(|elements|, k requires 0 <= k < |elements| => RenderAnnotationArgument(elements[k])), ", ") + "]"
  {
    RenderElementsAsSeq(elements);
  }

  /** The element texts as one comprehension. */
  lemma RenderElementsAsSeq(elements: seq<AnnotationArgument>)
    ensures RenderElements(elements) ==
      seq(|elements|, k requires 0 <= k < |elements| => RenderAnnotationArgument(elements[k]))
  {
    RenderElementsContents(elements);
  }

  /** An annotation with arguments is `C(n1 = v1, ..., nm = vm)`, its entries in map order. */
  lemma AnnotationLiteralForms(a: Annotation)
    requires a.arguments != []
    ensures RenderAnnotation(a) == a.className + "(" + Join(seq(|a.arguments|, k requires 0 <= k < |a.arguments| =>
      a.arguments[k].0 + " = " + RenderAnnotationArgument(a.arguments[k].1)), ", ") + ")"
  {
    RenderEntriesContents(a.arguments);
    assert RenderEntries(a.arguments) == seq(|a.arguments|, k requires 0 <= k < |a.arguments| =>
      a.arguments[k].0 + " = " + RenderAnnotationArgument(a.arguments[k].1));
  }

  /** An empty array is `[]`, and a two-element one `[a, b]`. */
  lemma ShortArrayLiterals(a: AnnotationArgument, b: AnnotationArgument)
    ensures RenderAnnotationArgument(ArrayValue([])) == "[]"
    ensures RenderAnnotationArgument(ArrayValue([a, b])) ==
      "[" + (RenderAnnotationArgument(a) + ", " + RenderAnnotationArgument(b)) + "]"
  {
    RenderPair(a, b);
    JoinPair(RenderAnnotationArgument(a), RenderAnnotationArgument(b), ", ");
  }

  /** Two elements render as two texts. */
  lemma RenderPair(a: AnnotationArgument, b: AnnotationArgument)
    ensures RenderElements([a, b]) == [RenderAnnotationArgument(a), RenderAnnotationArgument(b)]
  {
    var es := [a, b];
    assert es[1..] == [b] && es[1..][1..] == [];
    assert RenderElements(es[1..]) == [RenderAnnotationArgument(b)] + RenderElements(es[1..][1..]);
  }

  /** Equal texts of two values of the same integer kind mean equal values: the literal
      forms lose nothing. */
  lemma IntegerLiteralsInjective(a: AnnotationArgument, b: AnnotationArgument)
    requires (a.ByteValue? && b.ByteValue?) || (a.ShortValue? && b.ShortValue?) ||
             (a.IntValue? && b.IntValue?) || (a.LongValue? && b.LongValue?)
    requires RenderAnnotationArgument(a) == RenderAnnotationArgument(b)
    ensures a == b
  {
    var s := RenderAnnotationArgument(a);
    match a {
      case ByteValue(x) =>
        var suffix := ".toByte()";
        assert IntToString(x) == s[..|s| - |suffix|] == IntToString(b.byteValue);
        IntToStringInjective(x, b.byteValue);
      case ShortValue(x) =>
        var suffix := ".toShort()";
        assert IntToString(x) == s[..|s| - |suffix|] == IntToString(b.shortValue);
        IntToStringInjective(x, b.shortValue);
      case IntValue(x) =>
        IntToStringInjective(x, b.intValue);
      case LongValue(x) =>
        assert IntToString(x) == s[..|s| - 1] == IntToString(b.longValue);
        IntToStringInjective(x, b.longValue);
    }
  }

  // ---------------------------------------------------------------------------------
  // Pieces shared by the printers

  /** `lead + d + trail` for a present `d` and nothing for a missing one: the shape of the
      printers' `x?.let { append(...) }` and `if (x != null) append(...)` steps. */
  function Optional(lead: string, d: Option<string>, trail: string): string {
    match d
    case None => ""
    case Some(x) => lead + x + trail
  }

  /** `text` when `condition` holds, nothing otherwise. */
  function When(condition: bool, text: string): string {
    if condition then text else ""
  }

  /** `items.joinTo(sb, prefix = "<", postfix = ">")` guarded by `items.isNotEmpty()`. */
  function AngleList(items: seq<string>): string {
    if items == [] then "" else "<" + Join(items, ", ") + ">"
  }

  /** The type parameters of a declaration and `trail`, or nothing without type parameters. */
  function TypeParametersText(typeParams: seq<string>, trail: string): string {
    if typeParams == [] then "" else AngleList(typeParams) + trail
  }

  /** Each optional piece is present exactly when its part is, and then it is the part
      between its lead and its trail; a list in angle brackets is there exactly when it has
      items, and then it starts with `<` and ends with `>`. */
  lemma OptionalPiecesPresence(lead: string, d: Option<string>, trail: string, items: seq<string>, itemTrail: string)
    ensures d.None? ==> Optional(lead, d, trail) == ""
    ensures d.Some? ==> Optional(lead, d, trail) == lead + d.value + trail
    ensures AngleList(items) == "" <==> items == []
    ensures items != [] ==> AngleList(items)[0] == '<' && AngleList(items)[|AngleList(items)| - 1] == '>'
    ensures TypeParametersText(items, itemTrail) == "" <==> items == []
  {
  }

  method AppendOptional(sb: StringBuilder, lead: string, d: Option<string>, trail: string)
    modifies sb
    ensures sb.text == old(sb.text) + Optional(lead, d, trail)
  {
    if d != None {
      sb.Append(lead + d.value + trail);
    }
  }

  method AppendWhen(sb: StringBuilder, condition: bool, text: string)
    modifies sb
    ensures sb.text == old(sb.text) + When(condition, text)
  {
    if condition {
      sb.Append(text);
    }
  }

  method AppendAngleList(sb: StringBuilder, items: seq<string>)
    modifies sb
    ensures sb.text == old(sb.text) + AngleList(items)
  {
    if items != [] {
      sb.Append("<" + Join(items, ", ") + ">");
    }
  }

  method AppendTypeParameters(sb: StringBuilder, typeParams: seq<string>, trail: string)
    modifies sb
    ensures sb.text == old(sb.text) + TypeParametersText(typeParams, trail)
  {
    if typeParams != [] {
      sb.Append(AngleList(typeParams) + trail);
    }
  }

  // ---------------------------------------------------------------------------------
  // Types

  /** `Variance` */
  datatype Variance = INVARIANT | IN | OUT

  /** `variance.name.toLowerCase()` and a space, or nothing for an invariant argument. */
  function VariancePrefix(v: Variance): string {
    match v
    case INVARIANT => ""
    case IN => "in "
    case OUT => "out "
  }

  /** `if (variance != Variance.INVARIANT) append(variance.name.toLowerCase()).append(" ")` */
  method AppendVariance(sb: StringBuilder, v: Variance)
    modifies sb
    ensures sb.text == old(sb.text) + VariancePrefix(v)
  {
    if v != INVARIANT {
      sb.Append(VariancePrefix(v));
    }
  }

  /** What a type visitor is told its classifier is. */
  datatype Classifier = ClassName(fqName: string) | TypeParameterRef(id: int) | TypeAliasName(aliasName: string)

  /** What a type visitor is told about one type argument. */
  datatype TypeArgument = Projection(variance: Variance, argumentType: KmType) | StarProjection

  /** A type as the visitor calls describe it: flags, classifier, arguments, abbreviation. */
  datatype KmType = KmType(flags: Flags, classifier: Classifier, arguments: seq<TypeArgument>, abbreviatedType: Option<KmType>)

  function ClassifierText(c: Classifier): string {
    match c
    case ClassName(n) => n
    case TypeParameterRef(id) => "T#" + IntToString(id)
    case TypeAliasName(n) => n + "^"
  }

  /** What `visitEnd` of a type printer leaves in its builder when it held `before`:
      the arguments, `?` for a nullable type, and the abbreviation. */
  function AfterTypeEnd(before: string, arguments: seq<string>, nullable: bool, abbreviatedType: Option<string>): string {
    before + AngleList(arguments) + When(nullable, "?") + Optional(" /* = ", abbreviatedType, " */")
  }

  /** The text the type printer produces for `t`. */
  function TypeText(t: KmType): string
    decreases t, 1
  {
    AfterTypeEnd(FlagsText(t.flags, TypeFlags) + ClassifierText(t.classifier), ArgumentTexts(t.arguments),
      TypeIsNullable in t.flags, AbbreviationText(t))
  }

  /** The text of a type's abbreviation, when it has one. */
  function AbbreviationText(t: KmType): Option<string>
    decreases t, 0
  {
    match t.abbreviatedType
    case None => None
    case Some(a) => Some(TypeText(a))
  }

  function ArgumentTexts(arguments: seq<TypeArgument>): (r: seq<string>)
    ensures |r| == |arguments|
    decreases arguments
  {
    if arguments == [] then [] else [ArgumentText(arguments[0])] + ArgumentTexts(arguments[1..])
  }

  function ArgumentText(argument: TypeArgument): string
    decreases argument
  {
    match argument
    case StarProjection => "*"
    case Projection(v, t) => VariancePrefix(v) + TypeText(t)
  }

  lemma {:induction false} ArgumentTextsAppend(a: seq<TypeArgument>, b: seq<TypeArgument>)
    ensures ArgumentTexts(a + b) == ArgumentTexts(a) + ArgumentTexts(b)
  {
    if a == [] {
      assert a + b == b;
    } else {
      assert (a + b)[1..] == a[1..] + b;
      ArgumentTextsAppend(a[1..], b);
    }
  }

  /** A type's text starts with its flags and its classifier; right after comes `<` exactly
      when it has arguments; without arguments, `?` comes next exactly when it is nullable;
      and if neither, the text ends there exactly when it has no abbreviation. */
  lemma TypeTextAfterClassifier(t: KmType)
    ensures var head := FlagsText(t.flags, TypeFlags) + ClassifierText(t.classifier);
      var s := TypeText(t);
      && head <= s
      && (|s| > |head| && s[|head|] == '<' <==> t.arguments != [])
      && (t.arguments == [] ==> (|s| > |head| && s[|head|] == '?' <==> TypeIsNullable in t.flags))
      && (t.arguments == [] && TypeIsNullable !in t.flags ==> (s == head <==> t.abbreviatedType.None?))
  {
    TypeEndForms(FlagsText(t.flags, TypeFlags) + ClassifierText(t.classifier), ArgumentTexts(t.arguments),
      TypeIsNullable in t.flags, AbbreviationText(t));
  }

  /** What `visitEnd` appends after the classifier: `<` first exactly with arguments, then `?`
      first exactly for a nullable type, then nothing exactly without an abbreviation. */
  lemma TypeEndForms(before: string, arguments: seq<string>, nullable: bool, abbreviatedType: Option<string>)
    ensures var s := AfterTypeEnd(before, arguments, nullable, abbreviatedType);
      && before <= s
      && (|s| > |before| && s[|before|] == '<' <==> arguments != [])
      && (arguments == [] ==> (|s| > |before| && s[|before|] == '?' <==> nullable))
      && (arguments == [] && !nullable ==> (s == before <==> abbreviatedType.None?))
  {
    var angle, mark := AngleList(arguments), When(nullable, "?");
    var abbreviation := Optional(" /* = ", abbreviatedType, " */");
    var rest := angle + mark + abbreviation;
    assert AfterTypeEnd(before, arguments, nullable, abbreviatedType) == before + rest;
    if arguments != [] {
      FirstOfAppend("<" + Join(arguments, ", "), ">");
      FirstOfAppend(angle, mark);
      FirstOfAppend(angle + mark, abbreviation);
      FirstAfter(before, rest);
    } else if nullable {
      FirstOfAppend(angle + mark, abbreviation);
      FirstAfter(before, rest);
    } else if abbreviatedType.Some? {
      FirstOfAppend(" /* = " + abbreviatedType.value, " */");
      FirstAfter(before, rest);
    }
  }

  /** A text with a first character keeps it when more is appended. */
  lemma FirstOfAppend(a: string, b: string)
    requires a != []
    ensures a + b != [] && (a + b)[0] == a[0]
  {
  }

  /** The first character after `before` in `before + rest` is the first of `rest`. */
  lemma FirstAfter(before: string, rest: string)
    requires rest != []
    ensures before <= before + rest && |before + rest| > |before| && (before + rest)[|before|] == rest[0]
  {
  }

  /** The classifier forms: a class by its name, a type parameter as `T#id`, an alias by its
      name and `^`; arguments carry their variance prefix and a star projection is `*`. */
  lemma ClassifierAndArgumentForms(t: KmType, n: string, id: int)
    ensures ClassifierText(ClassName(n)) == n
    ensures ClassifierText(TypeParameterRef(id)) == "T#" + IntToString(id)
    ensures ClassifierText(TypeAliasName(n)) == n + "^"
    ensures ArgumentText(StarProjection) == "*"
    ensures ArgumentText(Projection(INVARIANT, t)) == TypeText(t)
    ensures ArgumentText(Projection(IN, t)) == "in " + TypeText(t)
    ensures ArgumentText(Projection(OUT, t)) == "out " + TypeText(t)
  {
  }

  /** Different type parameters are rendered differently. */
  lemma TypeParameterRefsInjective(i: int, j: int)
    requires ClassifierText(TypeParameterRef(i)) == ClassifierText(TypeParameterRef(j))
    ensures i == j
  {
    var a, b := "T#" + IntToString(i), "T#" + IntToString(j);
    assert IntToString(i) == a[2..] == b[2..] == IntToString(j);
    IntToStringInjective(i, j);
  }

  /** The object `printType` returns. Its own builder starts with the type's flags. */
  class TypePrinter {
    const flags: Flags
    const sb: StringBuilder
    var arguments: seq<string>
    var abbreviatedType: Option<string>

    constructor (flags: Flags)
      ensures this.flags == flags && fresh(sb)
      ensures sb.text == FlagsText(flags, TypeFlags)
      ensures arguments == [] && abbreviatedType == None
    {
      this.flags := flags;
      var b := new StringBuilder();
      AppendFlags(b, flags, TypeFlags);
      sb := b;
      arguments := [];
      abbreviatedType := None;
    }

    method VisitClass(fqName: string)
      modifies sb
      ensures sb.text == old(sb.text) + ClassifierText(ClassName(fqName))
    {
      sb.Append(fqName);
    }

    method VisitTypeParameter(id: int)
      modifies sb
      ensures sb.text == old(sb.text) + ClassifierText(TypeParameterRef(id))
    {
      sb.Append("T#" + IntToString(id));
    }

    method VisitTypeAlias(fqName: string)
      modifies sb
      ensures sb.text == old(sb.text) + ClassifierText(TypeAliasName(fqName))
    {
      sb.Append(fqName + "^");
    }

    /** The callback of `visitAbbreviatedType`, run with the abbreviation's text. */
    method OnAbbreviatedType(text: string)
      modifies this
      ensures abbreviatedType == Some(text) && arguments == old(arguments)
    {
      abbreviatedType := Some(text);
    }

    /** The callback of `visitArgument`, run with the argument type's text. */
    method OnArgument(variance: Variance, text: string)
      modifies this
      ensures arguments == old(arguments) + [VariancePrefix(variance) + text]
      ensures abbreviatedType == old(abbreviatedType)
    {
      var argument := new StringBuilder();
      AppendVariance(argument, variance);
      argument.Append(text);
      assert argument.text == VariancePrefix(variance) + text;
      arguments := arguments + [argument.text];
    }

    method VisitStarProjection()
      modifies this
      ensures arguments == old(arguments) + ["*"] && abbreviatedType == old(abbreviatedType)
    {
      arguments := arguments + ["*"];
    }

    /** `visitEnd`: the text handed to the output callback. */
    method VisitEnd() returns (output: string)
      modifies sb
      ensures output == sb.text
      ensures sb.text == AfterTypeEnd(old(sb.text), arguments, TypeIsNullable in flags, abbreviatedType)
    {
      AppendAngleList(sb, arguments);
      AppendWhen(sb, TypeIsNullable in flags, "?");
      AppendOptional(sb, " /* = ", abbreviatedType, " */");
      output := sb.text;
    }
  }

  /** Drives a type printer with the calls that describe `t` (classifier, then arguments,
      then abbreviation); the result is the type's text. */
  method PrintType(t: KmType) returns (output: string)
    ensures output == TypeText(t)
    decreases t, 1
  {
    var p := new TypePrinter(t.flags);
    match t.classifier {
      case ClassName(n) => p.VisitClass(n);
      case TypeParameterRef(id) => p.VisitTypeParameter(id);
      case TypeAliasName(n) => p.VisitTypeAlias(n);
    }
    PrintArguments(p, t);
    if t.abbreviatedType.Some? {
      var abbreviated := t.abbreviatedType.value;
      assert abbreviated < t.abbreviatedType;
      var text := PrintType(abbreviated);
      p.OnAbbreviatedType(text);
    }
    output := p.VisitEnd();
  }

  /** The `visitArgument` / `visitStarProjection` calls for the arguments of `t`, each
      argument type printed by a printer of its own. */
  method PrintArguments(p: TypePrinter, t: KmType)
    requires p.arguments == [] && p.abbreviatedType == None
    modifies p
    ensures p.arguments == ArgumentTexts(t.arguments) && p.abbreviatedType == None
    decreases t, 0
  {
    for i := 0 to |t.arguments|
      invariant p.arguments == ArgumentTexts(t.arguments[..i])
      invariant p.abbreviatedType == None
    {
      var argument := t.arguments[i];
      match argument {
        case StarProjection => p.VisitStarProjection();
        case Projection(v, at) =>
          var text := PrintType(at);
          p.OnArgument(v, text);
      }
      ArgumentTextsAppend(t.arguments[..i], [argument]);
      assert t.arguments[..i + 1] == t.arguments[..i] + [argument];
    }
    assert t.arguments[..|t.arguments|] == t.arguments;
  }

  // ---------------------------------------------------------------------------------
  // Type parameters and value parameters

  /** What the annotation loop of `printTypeParameter` leaves in a builder that held
      `before`: `@Annotation ` per annotation, in order. */
  function AfterAnnotationUses(before: string, annotations: seq<Annotation>): string
    decreases |annotations|
  {
    if annotations == [] then before
    else
      var last := annotations[|annotations| - 1];
      AfterAnnotationUses(before, annotations[..|annotations| - 1]) + "@" + RenderAnnotation(last) + " "
  }

  /** The text of a type parameter: flags, JVM annotations, variance, `T#id /* name */`. */
  function TypeParameterText(flags: Flags, name: string, id: int, variance: Variance,
                             annotations: seq<Annotation>): string
  {
    AfterAnnotationUses(FlagsText(flags, TypeParameterFlags), annotations) + VariancePrefix(variance)
    + ("T#" + IntToString(id) + " /* " + name + " */")
  }

  /** The loop of `printTypeParameter` over the JVM annotations. */
  method AppendAnnotationUses(sb: StringBuilder, annotations: seq<Annotation>)
    modifies sb
    ensures sb.text == AfterAnnotationUses(old(sb.text), annotations)
  {
    for i := 0 to |annotations|
      invariant sb.text == AfterAnnotationUses(old(sb.text), annotations[..i])
    {
      sb.Append("@");
      sb.Append(RenderAnnotation(annotations[i]));
      sb.Append(" ");
      assert annotations[..i + 1][..i] == annotations[..i];
    }
    assert annotations[..|annotations|] == annotations;
  }

  /** `printTypeParameter(...).visitEnd`: the text handed to the output callback. */
  method PrintTypeParameter(flags: Flags, name: string, id: int, variance: Variance,
                            annotations: seq<Annotation>) returns (output: string)
    ensures output == TypeParameterText(flags, name, id, variance, annotations)
  {
    var sb := new StringBuilder();
    AppendFlags(sb, flags, TypeParameterFlags);
    assert sb.text == FlagsText(flags, TypeParameterFlags);
    AppendAnnotationUses(sb, annotations);
    AppendVariance(sb, variance);
    sb.Append("T#" + IntToString(id) + " /* " + name + " */");
    output := sb.text;
  }

  /** A type parameter's text ends with `T#id /* name */`, and with no flags text, no
      annotations and no variance it is exactly that. */
  lemma TypeParameterForms(flags: Flags, name: string, id: int, variance: Variance, annotations: seq<Annotation>)
    ensures var s := TypeParameterText(flags, name, id, variance, annotations);
      var tail := "T#" + IntToString(id) + " /* " + name + " */";
      |tail| <= |s| && s[|s| - |tail|..] == tail
    ensures FlagsText(flags, TypeParameterFlags) == "" ==>
      TypeParameterText(flags, name, id, INVARIANT, []) == "T#" + IntToString(id) + " /* " + name + " */"
  {
  }

  /** `append(String?)`: a missing text appends `null`. */
  function TextOrNull(s: Option<string>): string {
    match s
    case None => "null"
    case Some(x) => x
  }

  /** `name: T`, or `vararg name: E /* T */` for a vararg parameter. */
  function ParameterDeclaration(name: string, parameterType: Option<string>, varargElementType: Option<string>): string {
    match varargElementType
    case Some(e) => "vararg " + name + ": " + e + " /* " + TextOrNull(parameterType) + " */"
    case None => name + ": " + TextOrNull(parameterType)
  }

  /** The text of a value parameter: flags, then `name: T` or `vararg name: E /* T */`, then
      ` /* = ... */` when it declares a default value. */
  function ValueParameterText(flags: Flags, name: string, parameterType: Option<string>,
                              varargElementType: Option<string>): string
  {
    FlagsText(flags, ValueParameterFlags) + ParameterDeclaration(name, parameterType, varargElementType)
    + When(ValueParameterDeclaresDefaultValue in flags, " /* = ... */")
  }

  /** With a declared default value the text ends with ` /* = ... */`; a plain parameter
      without default is its flags and `name: T`; a vararg one starts, after the flags, with
      `vararg `. */
  lemma ValueParameterForms(flags: Flags, name: string, parameterType: Option<string>,
                            varargElementType: Option<string>)
    ensures var s := ValueParameterText(flags, name, parameterType, varargElementType);
      var marker := " /* = ... */";
      && (ValueParameterDeclaresDefaultValue in flags ==> |s| >= |marker| && s[|s| - |marker|..] == marker)
      && (varargElementType.None? && ValueParameterDeclaresDefaultValue !in flags ==>
            s == FlagsText(flags, ValueParameterFlags) + (name + ": " + TextOrNull(parameterType)))
      && (varargElementType.Some? ==> FlagsText(flags, ValueParameterFlags) + "vararg " <= s)
      && (varargElementType.Some? && ValueParameterDeclaresDefaultValue !in flags ==>
            s == FlagsText(flags, ValueParameterFlags) +
              ("vararg " + name + ": " + varargElementType.value + " /* " + TextOrNull(parameterType) + " */"))
  {
    ParameterTextForms(FlagsText(flags, ValueParameterFlags), name, parameterType, varargElementType,
      ValueParameterDeclaresDefaultValue in flags);
  }

  /** `ValueParameterForms` for any flag text `lead`. */
  lemma ParameterTextForms(lead: string, name: string, parameterType: Option<string>,
                           varargElementType: Option<string>, hasDefault: bool)
    ensures var s := lead + ParameterDeclaration(name, parameterType, varargElementType)
        + When(hasDefault, " /* = ... */");
      var marker := " /* = ... */";
      && (hasDefault ==> |s| >= |marker| && s[|s| - |marker|..] == marker)
      && (varargElementType.None? && !hasDefault ==>
            s == lead + (name + ": " + TextOrNull(parameterType)))
      && (varargElementType.Some? ==> lead + "vararg " <= s)
      && (varargElementType.Some? && !hasDefault ==>
            s == lead + ("vararg " + name + ": " + varargElementType.value + " /* " + TextOrNull(parameterType) + " */"))
  {
    var marker := " /* = ... */";
    var d := ParameterDeclaration(name, parameterType, varargElementType);
    var w := When(hasDefault, marker);
    if hasDefault {
      SuffixOfAppend(lead + d, marker);
    }
    if varargElementType.Some? {
      var rest := name + ": " + varargElementType.value + " /* " + TextOrNull(parameterType) + " */";
      ExtendedPrefix(lead, "vararg ", rest);
      ExtendedPrefix(lead + d, w, "");
      PrefixOfPrefix(lead + "vararg ", lead + d, lead + d + w);
    }
  }

  /** A text ends with what was appended to it last. */
  lemma SuffixOfAppend(a: string, b: string)
    ensures EndsWith(a + b, b) && |a + b| >= |b| && (a + b)[|a + b| - |b|..] == b
  {
    assert (a + b)[|a|..] == b;
  }

  /** Appending more after `s + a` keeps `s + a` as a prefix. */
  lemma ExtendedPrefix(s: string, a: string, b: string)
    ensures s + a <= s + (a + b) && s + a <= s + a + b
  {
    assert (s + (a + b))[..|s + a|] == s + a;
    assert (s + a + b)[..|s + a|] == s + a;
  }

  /** The object `printValueParameter` returns. */
  class ValueParameterPrinter {
    const flags: Flags
    const name: string
    var varargElementType: Option<string>
    var parameterType: Option<string>

    constructor (flags: Flags, name: string)
      ensures this.flags == flags && this.name == name
      ensures varargElementType == None && parameterType == None
    {
      this.flags := flags;
      this.name := name;
      varargElementType := None;
      parameterType := None;
    }

    /** The callback of `visitType`. */
    method OnType(text: string)
      modifies this
      ensures parameterType == Some(text) && varargElementType == old(varargElementType)
    {
      parameterType := Some(text);
    }

    /** The callback of `visitVarargElementType`. */
    method OnVarargElementType(text: string)
      modifies this
      ensures varargElementType == Some(text) && parameterType == old(parameterType)
    {
      varargElementType := Some(text);
    }

    /** `visitEnd`: the text handed to the output callback. */
    method VisitEnd() returns (output: string)
      ensures output == ValueParameterText(flags, name, parameterType, varargElementType)
    {
      var sb := new StringBuilder();
      AppendFlags(sb, flags, ValueParameterFlags);
      assert sb.text == FlagsText(flags, ValueParameterFlags);
      AppendDeclaration(sb);
      AppendWhen(sb, ValueParameterDeclaresDefaultValue in flags, " /* = ... */");
      output := sb.text;
    }

    /** The branch of `visitEnd` on whether the parameter is a vararg. */
    method AppendDeclaration(sb: StringBuilder)
      modifies sb
      ensures sb.text == old(sb.text) + ParameterDeclaration(name, parameterType, varargElementType)
    {
      if varargElementType != None {
        sb.Append("vararg " + name + ": " + varargElementType.value + " /* " + TextOrNull(parameterType) + " */");
      } else {
        sb.Append(name + ": " + TextOrNull(parameterType));
      }
    }
  }

  // ---------------------------------------------------------------------------------
  // Functions, constructors, properties, type aliases

  /** What a function's `visitEnd` leaves in a builder that held `before`: an empty line,
      the JVM signature comment, then the declaration line with flags, `fun `, type
      parameters, receiver, name, parameters (always parenthesized) and return type. */
  function AfterFunction(before: string, flags: Flags, name: string, jvmSignature: Option<string>,
                         typeParams: seq<string>, receiver: Option<string>, params: seq<string>,
                         returnType: Option<string>): string
  {
    FunctionTail(FunctionHead(before, flags, jvmSignature), typeParams, receiver, name, params, returnType)
  }

  /** A function's output up to and including `fun `. */
  function FunctionHead(before: string, flags: Flags, jvmSignature: Option<string>): string {
    before + LineSeparator + Optional("  // ", jvmSignature, LineSeparator) + "  " + FlagsText(flags, FunctionFlags)
    + "fun "
  }

  /** What follows `fun ` on a function's declaration line, after `head`. */
  function FunctionTail(head: string, typeParams: seq<string>, receiver: Option<string>, name: string,
                        params: seq<string>, returnType: Option<string>): string
  {
    head + TypeParametersText(typeParams, " ") + Optional("", receiver, ".") + name + "(" + Join(params, ", ") + ")"
    + Optional(": ", returnType, "") + LineSeparator
  }

  /** `s` ends with `suffix`. */
  predicate EndsWith(s: string, suffix: string) {
    |suffix| <= |s| && s[|s| - |suffix|..] == suffix
  }

  /** The parts of a function's declaration line, for all inputs: right after `fun ` come the
      type parameters in angle brackets and a space exactly when there are some; `R.` comes
      right before the name exactly with a receiver `R`; the parameters are always in
      parentheses; the line ends with `): T` with a return type `T` and with `)` without. */
  lemma FunctionLineForms(before: string, flags: Flags, name: string, jvmSignature: Option<string>,
                          typeParams: seq<string>, receiver: Option<string>, params: seq<string>,
                          returnType: Option<string>)
    ensures var s := AfterFunction(before, flags, name, jvmSignature, typeParams, receiver, params, returnType);
      var head := FunctionHead(before, flags, jvmSignature);
      var typeParamsText := TypeParametersText(typeParams, " ");
      && (typeParams != [] ==> head + (AngleList(typeParams) + " ") <= s)
      && (typeParams == [] ==> head + (Optional("", receiver, ".") + name + "(") <= s)
      && (receiver.Some? ==> head + typeParamsText + (receiver.value + "." + name + "(") <= s)
      && (receiver.None? ==> head + typeParamsText + (name + "(") <= s)
      && (returnType.Some? ==> EndsWith(s, "): " + returnType.value + LineSeparator))
      && (returnType.None? ==> EndsWith(s, ")" + LineSeparator))
  {
    var s := AfterFunction(before, flags, name, jvmSignature, typeParams, receiver, params, returnType);
    var head := FunctionHead(before, flags, jvmSignature);
    var withTypeParams := head + TypeParametersText(typeParams, " ");
    var untilName := withTypeParams + Optional("", receiver, ".") + name + "(";
    var body := untilName + Join(params, ", ");
    assert s == body + ")" + Optional(": ", returnType, "") + LineSeparator;
    DeclarationEnd(body, returnType);
    NamePrefix(withTypeParams, receiver, name, body + ")" + Optional(": ", returnType, "") + LineSeparator);
    if typeParams == [] {
      assert withTypeParams == head;
    }
    var rest := Optional("", receiver, ".") + name + "(";
    PrefixOfAppend(withTypeParams, rest);
    PrefixOfPrefix(withTypeParams, withTypeParams + rest, s);
  }

  /** A text is a prefix of itself with more appended. */
  lemma PrefixOfAppend(a: string, b: string)
    ensures a <= a + b
  {
    assert (a + b)[..|a|] == a;
  }

  /** How a declaration line ends: `): T` and a line end with a return type, `)` and a line
      end without. */
  lemma DeclarationEnd(body: string, returnType: Option<string>)
    ensures var s := body + ")" + Optional(": ", returnType, "") + LineSeparator;
      && (returnType.Some? ==> EndsWith(s, "): " + returnType.value + LineSeparator))
      && (returnType.None? ==> EndsWith(s, ")" + LineSeparator))
  {
    var s := body + ")" + Optional(": ", returnType, "") + LineSeparator;
    match returnType
    case Some(r) =>
      var suffix := "): " + r + LineSeparator;
      assert s == body + suffix;
      assert s[|body|..] == suffix;
    case None =>
      assert s == body + (")" + LineSeparator);
      assert s[|body|..] == ")" + LineSeparator;
  }

  /** After `lead`, the receiver with its dot (if any) and the name and `(` come first. */
  lemma NamePrefix(lead: string, receiver: Option<string>, name: string, s: string)
    requires lead + Optional("", receiver, ".") + name + "(" <= s
    ensures receiver.Some? ==> lead + (receiver.value + "." + name + "(") <= s
    ensures receiver.None? ==> lead + (name + "(") <= s
    ensures lead + (Optional("", receiver, ".") + name + "(") <= s
  {
    AppendThree(lead, Optional("", receiver, "."), name, "(");
  }

  /** A prefix of a prefix is a prefix. */
  lemma PrefixOfPrefix(a: string, b: string, c: string)
    requires a <= b && b <= c
    ensures a <= c
  {
    assert c[..|a|] == b[..|a|];
  }

  /** A function with no signature, type parameters, receiver or return type and no flags
      text adds `fun name(params)` on a line of its own after an empty one; a receiver `R`
      puts `R.` right before the name. */
  lemma FunctionForms(before: string, flags: Flags, name: string, params: seq<string>, receiver: string)
    requires FlagsText(flags, FunctionFlags) == ""
    ensures AfterFunction(before, flags, name, None, [], None, params, None) ==
      before + LineSeparator + "  fun " + name + "(" + Join(params, ", ") + ")" + LineSeparator
    ensures AfterFunction(before, flags, name, None, [], Some(receiver), params, None) ==
      before + LineSeparator + "  fun " + receiver + "." + name + "(" + Join(params, ", ") + ")" + LineSeparator
  {
    var head := before + LineSeparator + "  fun ";
    PlainFunctionHead(before, flags);
    PlainFunctionTail(head, None, name, params);
    PlainFunctionTail(head, Some(receiver), name, params);
  }

  /** Without a signature or flag text, the head is an empty line and `  fun `. */
  lemma PlainFunctionHead(before: string, flags: Flags)
    requires FlagsText(flags, FunctionFlags) == ""
    ensures FunctionHead(before, flags, None) == before + LineSeparator + "  fun "
  {
    var line := before + LineSeparator;
    assert line + Optional("  // ", None, LineSeparator) == line;
    assert line + "  " + "" == line + "  ";
    AppendAssociative(line, "  ", "fun ");
    assert "  " + "fun " == "  fun ";
  }

  /** Without type parameters or a return type, the declaration line is the optional receiver,
      the name and the parameters. */
  lemma PlainFunctionTail(head: string, receiver: Option<string>, name: string, params: seq<string>)
    ensures receiver.None? ==>
      FunctionTail(head, [], receiver, name, params, None) == head + name + "(" + Join(params, ", ") + ")" + LineSeparator
    ensures receiver.Some? ==>
      FunctionTail(head, [], receiver, name, params, None) ==
      head + receiver.value + "." + name + "(" + Join(params, ", ") + ")" + LineSeparator
  {
    assert head + TypeParametersText([], " ") == head;
    if receiver.Some? {
      assert head + Optional("", receiver, ".") == head + receiver.value + ".";
    } else {
      assert head + Optional("", receiver, ".") == head;
    }
  }

  /** The object `visitFunction` returns: it writes to the builder of the printer that made it. */
  class FunctionPrinter {
    const sb: StringBuilder
    const flags: Flags
    const name: string
    const jvmSignature: Option<string>
    var typeParams: seq<string>
    var params: seq<string>
    var receiverParameterType: Option<string>
    var returnType: Option<string>

    constructor (sb: StringBuilder, flags: Flags, name: string, jvmSignature: Option<string>)
      ensures this.sb == sb && this.flags == flags && this.name == name && this.jvmSignature == jvmSignature
      ensures typeParams == [] && params == [] && receiverParameterType == None && returnType == None
    {
      this.sb := sb;
      this.flags := flags;
      this.name := name;
      this.jvmSignature := jvmSignature;
      typeParams := [];
      params := [];
      receiverParameterType := None;
      returnType := None;
    }

    /** The callback of `visitReceiverParameterType`. */
    method OnReceiverParameterType(text: string)
      modifies this
      ensures receiverParameterType == Some(text)
      ensures typeParams == old(typeParams) && params == old(params) && returnType == old(returnType)
    {
      receiverParameterType := Some(text);
    }

    /** The callback of `visitTypeParameter`. */
    method OnTypeParameter(text: string)
      modifies this
      ensures typeParams == old(typeParams) + [text]
      ensures params == old(params) && receiverParameterType == old(receiverParameterType) && returnType == old(returnType)
    {
      typeParams := typeParams + [text];
    }

    /** The callback of `visitValueParameter`. */
    method OnValueParameter(text: string)
      modifies this
      ensures params == old(params) + [text]
      ensures typeParams == old(typeParams) && receiverParameterType == old(receiverParameterType) && returnType == old(returnType)
    {
      params := params + [text];
    }

    /** The callback of `visitReturnType`. */
    method OnReturnType(text: string)
      modifies this
      ensures returnType == Some(text)
      ensures typeParams == old(typeParams) && params == old(params) && receiverParameterType == old(receiverParameterType)
    {
      returnType := Some(text);
    }

    method VisitEnd()
      modifies sb
      ensures sb.text ==
        AfterFunction(old(sb.text), flags, name, jvmSignature, typeParams, receiverParameterType, params, returnType)
    {
      sb.AppendNewLine();
      AppendOptional(sb, "  // ", jvmSignature, LineSeparator);
      sb.Append("  ");
      AppendFlags(sb, flags, FunctionFlags);
      sb.Append("fun ");
      AppendTypeParameters(sb, typeParams, " ");
      AppendOptional(sb, "", receiverParameterType, ".");
      sb.Append(name);
      sb.Append("(");
      sb.Append(Join(params, ", "));
      sb.Append(")");
      AppendOptional(sb, ": ", returnType, "");
      sb.AppendNewLine();
    }
  }

  /** What a constructor's `visitEnd` leaves in a builder that held `before`. */
  function AfterConstructor(before: string, flags: Flags, jvmSignature: Option<string>, params: seq<string>): string {
    before + LineSeparator + Optional("  // ", jvmSignature, LineSeparator)
    + "  " + FlagsText(flags, ConstructorFlags) + "constructor(" + Join(params, ", ") + ")" + LineSeparator
  }

  /** The object `ClassPrinter.visitConstructor` returns. */
  class ConstructorPrinter {
    const sb: StringBuilder
    const flags: Flags
    const jvmSignature: Option<string>
    var params: seq<string>

    constructor (sb: StringBuilder, flags: Flags, jvmSignature: Option<string>)
      ensures this.sb == sb && this.flags == flags && this.jvmSignature == jvmSignature && params == []
    {
      this.sb := sb;
      this.flags := flags;
      this.jvmSignature := jvmSignature;
      params := [];
    }

    /** The callback of `visitValueParameter`. */
    method OnValueParameter(text: string)
      modifies this
      ensures params == old(params) + [text]
    {
      params := params + [text];
    }

    method VisitEnd()
      modifies sb
      ensures sb.text == AfterConstructor(old(sb.text), flags, jvmSignature, params)
    {
      sb.AppendNewLine();
      AppendOptional(sb, "  // ", jvmSignature, LineSeparator);
      sb.Append("  ");
      AppendFlags(sb, flags, ConstructorFlags);
      sb.Append("constructor(");
      sb.Append(Join(params, ", "));
      sb.AppendLine(")");
    }
  }

  /** The JVM extensions of a property the printer shows as comments. */
  datatype JvmPropertyExtensions = JvmPropertyExtensions(
    fieldName: Option<string>,
    fieldType: Option<string>,
    getterSignature: Option<string>,
    setterSignature: Option<string>,
    syntheticMethodForAnnotationsSignature: Option<string>)

  /** The `  // name:type` field comment after `before`; the type is shown only with a name. */
  function AfterFieldComment(before: string, ext: JvmPropertyExtensions): string {
    match ext.fieldName
    case None => before
    case Some(n) => before + ("  // " + n) + Optional(":", ext.fieldType, "") + LineSeparator
  }

  /** The comment lines above a property, after `before`: field, getter, setter, synthetic
      method for annotations. */
  function AfterPropertyComments(before: string, ext: JvmPropertyExtensions): string {
    AfterFieldComment(before, ext)
    + Optional("  // getter: ", ext.getterSignature, LineSeparator)
    + Optional("  // setter: ", ext.setterSignature, LineSeparator)
    + Optional("  // synthetic method for annotations: ", ext.syntheticMethodForAnnotationsSignature, LineSeparator)
  }

  /** `var ` for a `var` property, `val ` otherwise. */
  function PropertyKeyword(flags: Flags): string {
    if PropertyIsVar in flags then "var " else "val "
  }

  /** What follows the keyword on a property's declaration line, after `before`. */
  function AfterPropertyTail(before: string, name: string, typeParams: seq<string>, receiver: Option<string>,
                             returnType: Option<string>, hasConstant: bool): (r: string)
    ensures |before| <= |r| && r[..|before|] == before
  {
    before + TypeParametersText(typeParams, " ") + Optional("", receiver, ".") + name + Optional(": ", returnType, "")
    + When(hasConstant, " /* = ... */") + LineSeparator
  }

  /** The declaration line of a property, after `before`. */
  function AfterPropertyDeclaration(before: string, flags: Flags, name: string, typeParams: seq<string>,
                                    receiver: Option<string>, returnType: Option<string>): string
  {
    AfterPropertyTail(before + "  " + FlagsText(flags, PropertyFlags) + PropertyKeyword(flags),
      name, typeParams, receiver, returnType, PropertyHasConstant in flags)
  }

  /** An accessor line `    flags get` (or `set`) after `before`, there only when `present`. */
  function AfterAccessor(before: string, present: bool, accessorFlags: Flags, keyword: string): string {
    if present then before + "    " + FlagsText(accessorFlags, PropertyAccessorFlags) + keyword + LineSeparator
    else before
  }

  /** What a property's `visitEnd` leaves in a builder that held `before`. */
  function AfterProperty(before: string, flags: Flags, name: string, getterFlags: Flags, setterFlags: Flags,
                         ext: JvmPropertyExtensions, typeParams: seq<string>, receiver: Option<string>,
                         returnType: Option<string>): string
  {
    var comments := AfterPropertyComments(before + LineSeparator, ext);
    var declaration := AfterPropertyDeclaration(comments, flags, name, typeParams, receiver, returnType);
    AfterAccessor(AfterAccessor(declaration, PropertyHasGetter in flags, getterFlags, "get"),
      PropertyHasSetter in flags, setterFlags, "set")
  }

  /** A property is declared `var` exactly when its flag says so (`val` otherwise), and with a
      constant its declaration line ends with the constant marker. */
  lemma PropertyDeclarationForms(before: string, flags: Flags, name: string, typeParams: seq<string>,
                                 receiver: Option<string>, returnType: Option<string>)
    ensures var d := AfterPropertyDeclaration(before, flags, name, typeParams, receiver, returnType);
      var lead := before + "  " + FlagsText(flags, PropertyFlags);
      && |lead| + 4 <= |d|
      && (d[|lead|..|lead| + 4] == "var " <==> PropertyIsVar in flags)
      && (d[|lead|..|lead| + 4] == "val " <==> PropertyIsVar !in flags)
    ensures var d := AfterPropertyDeclaration(before, flags, name, typeParams, receiver, returnType);
      var marker := " /* = ... */" + LineSeparator;
      PropertyHasConstant in flags ==> |marker| <= |d| && d[|d| - |marker|..] == marker
  {
    var lead := before + "  " + FlagsText(flags, PropertyFlags);
    KeywordAtLead(lead, PropertyKeyword(flags), name, typeParams, receiver, returnType, PropertyHasConstant in flags);
    if PropertyHasConstant in flags {
      TailEndsWithMarker(lead + PropertyKeyword(flags), name, typeParams, receiver, returnType);
    }
  }

  /** The keyword put after `lead` stays at that position whatever follows it. */
  lemma KeywordAtLead(lead: string, keyword: string, name: string, typeParams: seq<string>,
                      receiver: Option<string>, returnType: Option<string>, hasConstant: bool)
    ensures var d := AfterPropertyTail(lead + keyword, name, typeParams, receiver, returnType, hasConstant);
      |lead| + |keyword| <= |d| && d[|lead|..|lead| + |keyword|] == keyword
  {
    var head := lead + keyword;
    var d := AfterPropertyTail(head, name, typeParams, receiver, returnType, hasConstant);
    assert d[..|head|] == head;
    assert d[|lead|..|lead| + |keyword|] == head[|lead|..];
  }

  /** With a constant, the declaration line ends with the constant marker. */
  lemma TailEndsWithMarker(head: string, name: string, typeParams: seq<string>, receiver: Option<string>,
                           returnType: Option<string>)
    ensures var d := AfterPropertyTail(head, name, typeParams, receiver, returnType, true);
      var marker := " /* = ... */" + LineSeparator;
      |marker| <= |d| && d[|d| - |marker|..] == marker
  {
    var marker := " /* = ... */" + LineSeparator;
    var body := head + TypeParametersText(typeParams, " ") + Optional("", receiver, ".") + name
      + Optional(": ", returnType, "");
    var d := AfterPropertyTail(head, name, typeParams, receiver, returnType, true);
    assert d == body + marker;
    assert d[|body|..] == marker;
  }

  /** An accessor line is there exactly when the accessor is, and then it is indented by four
      spaces and ends with its keyword. */
  lemma AccessorForms(before: string, present: bool, accessorFlags: Flags, keyword: string)
    ensures AfterAccessor(before, present, accessorFlags, keyword) == before <==> !present
    ensures present ==> var s := AfterAccessor(before, present, accessorFlags, keyword);
      && s[..|before| + 4] == before + "    "
      && s[|s| - |keyword + LineSeparator|..] == keyword + LineSeparator
  {
    if present {
      var s := AfterAccessor(before, present, accessorFlags, keyword);
      assert s == before + "    " + (FlagsText(accessorFlags, PropertyAccessorFlags) + keyword + LineSeparator);
      assert |s| > |before|;
    }
  }

  /** One accessor section of a property's `visitEnd`. */
  method AppendAccessor(sb: StringBuilder, present: bool, accessorFlags: Flags, keyword: string)
    modifies sb
    ensures sb.text == AfterAccessor(old(sb.text), present, accessorFlags, keyword)
  {
    if present {
      sb.Append("    ");
      AppendFlags(sb, accessorFlags, PropertyAccessorFlags);
      sb.AppendLine(keyword);
    }
  }

  /** The field comment of a property's `visitEnd`. */
  method AppendFieldComment(sb: StringBuilder, ext: JvmPropertyExtensions)
    modifies sb
    ensures sb.text == AfterFieldComment(old(sb.text), ext)
  {
    if ext.fieldName != None {
      sb.Append("  // " + ext.fieldName.value);
      AppendOptional(sb, ":", ext.fieldType, "");
      sb.AppendNewLine();
    }
  }

  /** The object `visitProperty` returns: it writes to the builder of the printer that made it. */
  class PropertyPrinter {
    const sb: StringBuilder
    const flags: Flags
    const name: string
    const getterFlags: Flags
    const setterFlags: Flags
    const ext: JvmPropertyExtensions
    var typeParams: seq<string>
    var receiverParameterType: Option<string>
    var returnType: Option<string>

    constructor (sb: StringBuilder, flags: Flags, name: string, getterFlags: Flags, setterFlags: Flags,
                 ext: JvmPropertyExtensions)
      ensures this.sb == sb && this.flags == flags && this.name == name
      ensures this.getterFlags == getterFlags && this.setterFlags == setterFlags && this.ext == ext
      ensures typeParams == [] && receiverParameterType == None && returnType == None
    {
      this.sb := sb;
      this.flags := flags;
      this.name := name;
      this.getterFlags := getterFlags;
      this.setterFlags := setterFlags;
      this.ext := ext;
      typeParams := [];
      receiverParameterType := None;
      returnType := None;
    }

    /** The callback of `visitReceiverParameterType`. */
    method OnReceiverParameterType(text: string)
      modifies this
      ensures receiverParameterType == Some(text) && typeParams == old(typeParams) && returnType == old(returnType)
    {
      receiverParameterType := Some(text);
    }

    /** The callback of `visitTypeParameter`. */
    method OnTypeParameter(text: string)
      modifies this
      ensures typeParams == old(typeParams) + [text]
      ensures receiverParameterType == old(receiverParameterType) && returnType == old(returnType)
    {
      typeParams := typeParams + [text];
    }

    /** The callback of `visitReturnType`. */
    method OnReturnType(text: string)
      modifies this
      ensures returnType == Some(text) && typeParams == old(typeParams) && receiverParameterType == old(receiverParameterType)
    {
      returnType := Some(text);
    }

    method VisitEnd()
      modifies sb
      ensures sb.text ==
        AfterProperty(old(sb.text), flags, name, getterFlags, setterFlags, ext, typeParams, receiverParameterType, returnType)
    {
      sb.AppendNewLine();
      AppendComments();
      AppendDeclaration();
      AppendAccessor(sb, PropertyHasGetter in flags, getterFlags, "get");
      AppendAccessor(sb, PropertyHasSetter in flags, setterFlags, "set");
    }

    /** The comment lines of `visitEnd`. */
    method AppendComments()
      modifies sb
      ensures sb.text == AfterPropertyComments(old(sb.text), ext)
    {
      AppendFieldComment(sb, ext);
      AppendOptional(sb, "  // getter: ", ext.getterSignature, LineSeparator);
      AppendOptional(sb, "  // setter: ", ext.setterSignature, LineSeparator);
      AppendOptional(sb, "  // synthetic method for annotations: ", ext.syntheticMethodForAnnotationsSignature, LineSeparator);
    }

    /** The declaration line of `visitEnd`. */
    method AppendDeclaration()
      modifies sb
      ensures sb.text == AfterPropertyDeclaration(old(sb.text), flags, name, typeParams, receiverParameterType, returnType)
    {
      sb.Append("  ");
      AppendFlags(sb, flags, PropertyFlags);
      sb.Append(if PropertyIsVar in flags then "var " else "val ");
      AppendPropertyTail(sb, name, typeParams, receiverParameterType, returnType, PropertyHasConstant in flags);
    }
  }

  /** What the declaration line of a property's `visitEnd` has after the keyword. */
  method AppendPropertyTail(sb: StringBuilder, name: string, typeParams: seq<string>, receiver: Option<string>,
                            returnType: Option<string>, hasConstant: bool)
    modifies sb
    ensures sb.text == AfterPropertyTail(old(sb.text), name, typeParams, receiver, returnType, hasConstant)
  {
    AppendTypeParameters(sb, typeParams, " ");
    AppendOptional(sb, "", receiver, ".");
    sb.Append(name);
    AppendOptional(sb, ": ", returnType, "");
    AppendWhen(sb, hasConstant, " /* = ... */");
    sb.AppendNewLine();
  }

  /** What the annotation loop of a type alias's `visitEnd` leaves in a builder that held
      `before`: one `  @Annotation` line per annotation, in order. */
  function AfterAnnotationLines(before: string, annotations: seq<Annotation>): string
    decreases |annotations|
  {
    if annotations == [] then before
    else
      var last := annotations[|annotations| - 1];
      AfterAnnotationLines(before, annotations[..|annotations| - 1]) + "  " + "@" + RenderAnnotation(last) + LineSeparator
  }

  /** The loop of a type alias's `visitEnd` over its annotations. */
  method AppendAnnotationLines(sb: StringBuilder, annotations: seq<Annotation>)
    modifies sb
    ensures sb.text == AfterAnnotationLines(old(sb.text), annotations)
  {
    for i := 0 to |annotations|
      invariant sb.text == AfterAnnotationLines(old(sb.text), annotations[..i])
    {
      sb.Append("  ");
      sb.Append("@");
      sb.Append(RenderAnnotation(annotations[i]));
      sb.AppendNewLine();
      assert annotations[..i + 1][..i] == annotations[..i];
    }
    assert annotations[..|annotations|] == annotations;
  }

  /** What a type alias's `visitEnd` leaves in a builder that held `before`. */
  function AfterTypeAlias(before: string, flags: Flags, name: string, annotations: seq<Annotation>,
                          typeParams: seq<string>, underlyingType: Option<string>,
                          expandedType: Option<string>): string
  {
    TypeAliasTail(AfterAnnotationLines(before + LineSeparator, annotations)
      + "  " + FlagsText(flags, VisibilityFlags) + "typealias " + name, typeParams, underlyingType, expandedType)
  }

  /** What follows the name on a type alias's declaration line, after `head`. */
  function TypeAliasTail(head: string, typeParams: seq<string>, underlyingType: Option<string>,
                         expandedType: Option<string>): string
  {
    head + TypeParametersText(typeParams, "") + Optional(" = ", underlyingType, "")
    + Optional(" /* = ", expandedType, " */") + LineSeparator
  }

  /** The lines `  @Annotation` of a type alias, one per annotation in order. */
  function AnnotationLineTexts(annotations: seq<Annotation>): (r: seq<string>)
    ensures |r| == |annotations| &&
      forall k :: 0 <= k < |annotations| ==> r[k] == "  " + "@" + RenderAnnotation(annotations[k]) + LineSeparator
  {
    seq(|annotations|, k requires 0 <= k < |annotations| => "  " + "@" + RenderAnnotation(annotations[k]) + LineSeparator)
  }

  /** The annotation loop leaves the earlier text followed by one line per annotation. */
  lemma {:induction false} AnnotationLinesListing(before: string, annotations: seq<Annotation>)
    ensures AfterAnnotationLines(before, annotations) == before + Concat(AnnotationLineTexts(annotations))
    decreases |annotations|
  {
    if annotations != [] {
      var n := |annotations|;
      var init := annotations[..n - 1];
      AnnotationLinesListing(before, init);
      var line := "  " + "@" + RenderAnnotation(annotations[n - 1]) + LineSeparator;
      AnnotationLineTextsSnoc(annotations);
      ConcatAppend(AnnotationLineTexts(init), [line]);
      assert Concat([line]) == line;
      AppendAssociative(before, Concat(AnnotationLineTexts(init)), line);
      AppendFour(AfterAnnotationLines(before, init), "  ", "@", RenderAnnotation(annotations[n - 1]), LineSeparator);
    }
  }

  /** The lines of a longer annotation list are those of the shorter one and one more. */
  lemma AnnotationLineTextsSnoc(annotations: seq<Annotation>)
    requires annotations != []
    ensures AnnotationLineTexts(annotations) == AnnotationLineTexts(annotations[..|annotations| - 1]) +
      ["  " + "@" + RenderAnnotation(annotations[|annotations| - 1]) + LineSeparator]
  {
    var lines, initLines := AnnotationLineTexts(annotations), AnnotationLineTexts(annotations[..|annotations| - 1]);
    assert forall k :: 0 <= k < |annotations| - 1 ==> lines[k] == initLines[k];
  }

  /** A type alias prints an empty line, its annotation lines, then `  typealias name` after
      the visibility flags; the angle list follows the name directly (with no space) when
      there are type parameters; the line ends with ` /* = E */` with an expanded type,
      otherwise with ` = U` with an underlying type, otherwise right after the name and the
      type parameters. */
  lemma TypeAliasForms(before: string, flags: Flags, name: string, annotations: seq<Annotation>,
                       typeParams: seq<string>, underlyingType: Option<string>, expandedType: Option<string>)
    ensures AfterAnnotationLines(before + LineSeparator, annotations) ==
      before + LineSeparator + Concat(AnnotationLineTexts(annotations))
    ensures var s := AfterTypeAlias(before, flags, name, annotations, typeParams, underlyingType, expandedType);
      var lead := AfterAnnotationLines(before + LineSeparator, annotations)
        + "  " + FlagsText(flags, VisibilityFlags) + "typealias " + name;
      && lead <= s
      && (typeParams != [] ==> lead + AngleList(typeParams) <= s)
      && (expandedType.Some? ==> EndsWith(s, " /* = " + expandedType.value + " */" + LineSeparator))
      && (expandedType.None? && underlyingType.Some? ==> EndsWith(s, " = " + underlyingType.value + LineSeparator))
      && (expandedType.None? && underlyingType.None? ==> s == lead + TypeParametersText(typeParams, "") + LineSeparator)
  {
    AnnotationLinesListing(before + LineSeparator, annotations);
    TypeAliasTailForms(AfterAnnotationLines(before + LineSeparator, annotations)
      + "  " + FlagsText(flags, VisibilityFlags) + "typealias " + name, typeParams, underlyingType, expandedType);
  }

  /** `TypeAliasForms` for the line after any `lead`. */
  lemma TypeAliasTailForms(lead: string, typeParams: seq<string>, underlyingType: Option<string>,
                           expandedType: Option<string>)
    ensures var s := TypeAliasTail(lead, typeParams, underlyingType, expandedType);
      && lead <= s
      && (typeParams != [] ==> lead + AngleList(typeParams) <= s)
      && (expandedType.Some? ==> EndsWith(s, " /* = " + expandedType.value + " */" + LineSeparator))
      && (expandedType.None? && underlyingType.Some? ==> EndsWith(s, " = " + underlyingType.value + LineSeparator))
      && (expandedType.None? && underlyingType.None? ==> s == lead + TypeParametersText(typeParams, "") + LineSeparator)
  {
    var withTypeParams := lead + TypeParametersText(typeParams, "");
    var withUnderlying := withTypeParams + Optional(" = ", underlyingType, "");
    var s := withUnderlying + Optional(" /* = ", expandedType, " */") + LineSeparator;
    if typeParams != [] {
      assert TypeParametersText(typeParams, "") == AngleList(typeParams);
    }
    PrefixOfPrefix(lead, withTypeParams, s);
    OptionalAtEnd(withUnderlying, " /* = ", expandedType, " */");
    if expandedType.None? {
      OptionalAtEnd(withTypeParams, " = ", underlyingType, "");
    }
  }

  /** A present optional piece just before the line end ends the line. */
  lemma OptionalAtEnd(body: string, lead: string, d: Option<string>, trail: string)
    ensures d.Some? ==> EndsWith(body + Optional(lead, d, trail) + LineSeparator, lead + d.value + trail + LineSeparator)
    ensures d.None? ==> body + Optional(lead, d, trail) + LineSeparator == body + LineSeparator
  {
    if d.Some? {
      var piece := lead + d.value + trail;
      AppendAssociative(body, piece, LineSeparator);
      assert (body + (piece + LineSeparator))[|body|..] == piece + LineSeparator;
    }
  }

  /** The object `visitTypeAlias` returns: it writes to the builder of the printer that made it. */
  class TypeAliasPrinter {
    const sb: StringBuilder
    const flags: Flags
    const name: string
    var annotations: seq<Annotation>
    var typeParams: seq<string>
    var underlyingType: Option<string>
    var expandedType: Option<string>

    constructor (sb: StringBuilder, flags: Flags, name: string)
      ensures this.sb == sb && this.flags == flags && this.name == name
      ensures annotations == [] && typeParams == [] && underlyingType == None && expandedType == None
    {
      this.sb := sb;
      this.flags := flags;
      this.name := name;
      annotations := [];
      typeParams := [];
      underlyingType := None;
      expandedType := None;
    }

    /** The callback of `visitTypeParameter`. */
    method OnTypeParameter(text: string)
      modifies this
      ensures typeParams == old(typeParams) + [text] && annotations == old(annotations)
      ensures underlyingType == old(underlyingType) && expandedType == old(expandedType)
    {
      typeParams := typeParams + [text];
    }

    /** The callback of `visitUnderlyingType`. */
    method OnUnderlyingType(text: string)
      modifies this
      ensures underlyingType == Some(text) && annotations == old(annotations)
      ensures typeParams == old(typeParams) && expandedType == old(expandedType)
    {
      underlyingType := Some(text);
    }

    /** The callback of `visitExpandedType`. */
    method OnExpandedType(text: string)
      modifies this
      ensures expandedType == Some(text) && annotations == old(annotations)
      ensures typeParams == old(typeParams) && underlyingType == old(underlyingType)
    {
      expandedType := Some(text);
    }

    method VisitAnnotation(annotation: Annotation)
      modifies this
      ensures annotations == old(annotations) + [annotation]
      ensures typeParams == old(typeParams) && underlyingType == old(underlyingType) && expandedType == old(expandedType)
    {
      annotations := annotations + [annotation];
    }

    method VisitEnd()
      modifies sb
      ensures sb.text == AfterTypeAlias(old(sb.text), flags, name, annotations, typeParams, underlyingType, expandedType)
    {
      sb.AppendNewLine();
      AppendAnnotationLines(sb, annotations);
      sb.Append("  ");
      AppendFlags(sb, flags, VisibilityFlags);
      sb.Append("typealias ");
      sb.Append(name);
      AppendTypeParameters(sb, typeParams, "");
      AppendOptional(sb, " = ", underlyingType, "");
      AppendOptional(sb, " /* = ", expandedType, " */");
      sb.AppendNewLine();
    }
  }

  // ---------------------------------------------------------------------------------
  // Indented listings

  /** What a loop appending `indent + item` as a line per item leaves in a builder that
      held `before`. */
  function AfterLines(before: string, indent: string, items: seq<string>): string
    decreases |items|
  {
    if items == [] then before
    else AfterLines(before, indent, items[..|items| - 1]) + (indent + items[|items| - 1]) + LineSeparator
  }

  /** The lines of a listing, one per item, in the items' order. */
  function ListingLines(indent: string, items: seq<string>): (r: seq<string>)
    ensures |r| == |items| && forall k :: 0 <= k < |items| ==> r[k] == indent + items[k] + LineSeparator
  {
    seq(|items|, k requires 0 <= k < |items| => indent + items[k] + LineSeparator)
  }

  /** A listing is its lines, one per item in order, after what was there before. */
  lemma {:induction false} AfterLinesListing(before: string, indent: string, items: seq<string>)
    ensures AfterLines(before, indent, items) == before + Concat(ListingLines(indent, items))
    decreases |items|
  {
    if items != [] {
      var n := |items|;
      var init := items[..n - 1];
      AfterLinesListing(before, indent, init);
      var line := indent + items[n - 1] + LineSeparator;
      ListingLinesSnoc(indent, items);
      ConcatAppend(ListingLines(indent, init), [line]);
      assert Concat([line]) == line;
      Text.AppendAssociative(before, Concat(ListingLines(indent, init)), line);
      Text.AppendAssociative(AfterLines(before, indent, init), indent + items[n - 1], LineSeparator);
    }
  }

  /** The lines of a longer listing are those of the shorter one and one more line. */
  lemma ListingLinesSnoc(indent: string, items: seq<string>)
    requires items != []
    ensures ListingLines(indent, items) ==
      ListingLines(indent, items[..|items| - 1]) + [indent + items[|items| - 1] + LineSeparator]
  {
    var lines, initLines := ListingLines(indent, items), ListingLines(indent, items[..|items| - 1]);
    assert forall k :: 0 <= k < |items| - 1 ==> lines[k] == initLines[k];
  }

  /** The loop of a listing. */
  method AppendLines(sb: StringBuilder, indent: string, items: seq<string>)
    modifies sb
    ensures sb.text == AfterLines(old(sb.text), indent, items)
  {
    for i := 0 to |items|
      invariant sb.text == AfterLines(old(sb.text), indent, items[..i])
    {
      sb.AppendLine(indent + items[i]);
      assert items[..i + 1][..i] == items[..i];
    }
    assert items[..|items|] == items;
  }

  // ---------------------------------------------------------------------------------
  // Classes

  /** The supertypes after ` : `, or nothing without supertypes. */
  function SupertypesText(supertypes: seq<string>): string {
    if supertypes == [] then "" else " : " + Join(supertypes, ", ")
  }

  method AppendSupertypes(sb: StringBuilder, supertypes: seq<string>)
    modifies sb
    ensures sb.text == old(sb.text) + SupertypesText(supertypes)
  {
    if supertypes != [] {
      sb.Append(" : " + Join(supertypes, ", "));
    }
  }

  /** What a class's `visitEnd` leaves in a result that held `before`, given the text the
      member printers wrote. */
  function AfterClass(before: string, typeParams: seq<string>, supertypes: seq<string>, members: string): string {
    before + TypeParametersText(typeParams, "") + SupertypesText(supertypes) + " {" + LineSeparator + members + "}" + LineSeparator
  }

  /** Without type parameters and supertypes the header is followed directly by ` {`; with
      supertypes they follow ` : ` after the type parameters; either way the members come
      between the opening line and the closing brace. */
  lemma ClassForms(before: string, typeParams: seq<string>, supertypes: seq<string>, members: string)
    ensures AfterClass(before, [], [], members) == before + " {" + LineSeparator + members + "}" + LineSeparator
    ensures supertypes != [] ==>
      AfterClass(before, typeParams, supertypes, members) ==
      before + TypeParametersText(typeParams, "") + " : " + Join(supertypes, ", ") + " {" + LineSeparator + members + "}" + LineSeparator
  {
    assert before + "" + "" == before;
  }

  /** `ClassPrinter`: the header goes to `result`, the members to `sb`, and `visitEnd` puts
      the members inside the braces. */
  class ClassPrinter {
    const sb: StringBuilder
    const result: StringBuilder
    var typeParams: seq<string>
    var supertypes: seq<string>

    /** The members and the header are written to two different builders. */
    predicate Valid() {
      sb != result
    }

    constructor ()
      ensures fresh(sb) && fresh(result) && Valid()
      ensures sb.text == "" && result.text == "" && typeParams == [] && supertypes == []
    {
      sb := new StringBuilder();
      result := new StringBuilder();
      typeParams := [];
      supertypes := [];
    }

    method Visit(flags: Flags, fqName: string)
      modifies result
      ensures result.text == old(result.text) + FlagsText(flags, ClassFlags) + fqName
    {
      AppendFlags(result, flags, ClassFlags);
      result.Append(fqName);
    }

    method VisitEnd()
      requires Valid()
      modifies result
      ensures result.text == AfterClass(old(result.text), typeParams, supertypes, sb.text)
    {
      AppendTypeParameters(result, typeParams, "");
      AppendSupertypes(result, supertypes);
      result.AppendLine(" {");
      result.Append(sb.text);
      result.AppendLine("}");
    }

    /** The callback of `visitTypeParameter`. */
    method OnTypeParameter(text: string)
      modifies this
      ensures typeParams == old(typeParams) + [text] && supertypes == old(supertypes)
    {
      typeParams := typeParams + [text];
    }

    /** The callback of `visitSupertype`. */
    method OnSupertype(text: string)
      modifies this
      ensures supertypes == old(supertypes) + [text] && typeParams == old(typeParams)
    {
      supertypes := supertypes + [text];
    }

    method VisitConstructor(flags: Flags, jvmSignature: Option<string>) returns (p: ConstructorPrinter)
      ensures fresh(p) && p.sb == sb && p.flags == flags && p.jvmSignature == jvmSignature && p.params == []
    {
      p := new ConstructorPrinter(sb, flags, jvmSignature);
    }

    method VisitFunction(flags: Flags, name: string, jvmSignature: Option<string>) returns (p: FunctionPrinter)
      ensures fresh(p) && p.sb == sb && p.flags == flags && p.name == name && p.jvmSignature == jvmSignature
      ensures p.typeParams == [] && p.params == [] && p.receiverParameterType == None && p.returnType == None
    {
      p := new FunctionPrinter(sb, flags, name, jvmSignature);
    }

    method VisitProperty(flags: Flags, name: string, getterFlags: Flags, setterFlags: Flags,
                         ext: JvmPropertyExtensions) returns (p: PropertyPrinter)
      ensures fresh(p) && p.sb == sb && p.flags == flags && p.name == name
      ensures p.getterFlags == getterFlags && p.setterFlags == setterFlags && p.ext == ext
      ensures p.typeParams == [] && p.receiverParameterType == None && p.returnType == None
    {
      p := new PropertyPrinter(sb, flags, name, getterFlags, setterFlags, ext);
    }

    method VisitTypeAlias(flags: Flags, name: string) returns (p: TypeAliasPrinter)
      ensures fresh(p) && p.sb == sb && p.flags == flags && p.name == name
      ensures p.annotations == [] && p.typeParams == [] && p.underlyingType == None && p.expandedType == None
    {
      p := new TypeAliasPrinter(sb, flags, name);
    }

    method VisitCompanionObject(name: string)
      modifies sb
      ensures sb.text == old(sb.text) + LineSeparator + ("  // companion object: " + name) + LineSeparator
    {
      sb.AppendNewLine();
      sb.AppendLine("  // companion object: " + name);
    }

    method VisitNestedClass(name: string)
      modifies sb
      ensures sb.text == old(sb.text) + LineSeparator + ("  // nested class: " + name) + LineSeparator
    {
      sb.AppendNewLine();
      sb.AppendLine("  // nested class: " + name);
    }

    method VisitEnumEntry(name: string)
      modifies sb
      ensures sb.text == old(sb.text) + LineSeparator + ("  " + name + ",") + LineSeparator
    {
      sb.AppendNewLine();
      sb.AppendLine("  " + name + ",");
    }

    method VisitSealedSubclass(fqName: string)
      modifies sb
      ensures sb.text == old(sb.text) + LineSeparator + ("  // sealed subclass: " + fqName) + LineSeparator
    {
      sb.AppendNewLine();
      sb.AppendLine("  // sealed subclass: " + fqName);
    }
  }

  // ---------------------------------------------------------------------------------
  // Packages, lambdas, multi-file classes, module files

  /** `PackagePrinter`, the printer of file facades and of multi-file class parts. */
  class PackagePrinter {
    const sb: StringBuilder

    constructor ()
      ensures fresh(sb) && sb.text == "package {" + LineSeparator
    {
      var b := new StringBuilder();
      b.AppendLine("package {");
      sb := b;
    }

    method VisitEnd()
      modifies sb
      ensures sb.text == old(sb.text) + "}" + LineSeparator
    {
      sb.AppendLine("}");
    }

    method VisitFunction(flags: Flags, name: string, jvmSignature: Option<string>) returns (p: FunctionPrinter)
      ensures fresh(p) && p.sb == sb && p.flags == flags && p.name == name && p.jvmSignature == jvmSignature
      ensures p.typeParams == [] && p.params == [] && p.receiverParameterType == None && p.returnType == None
    {
      p := new FunctionPrinter(sb, flags, name, jvmSignature);
    }

    method VisitProperty(flags: Flags, name: string, getterFlags: Flags, setterFlags: Flags,
                         ext: JvmPropertyExtensions) returns (p: PropertyPrinter)
      ensures fresh(p) && p.sb == sb && p.flags == flags && p.name == name
      ensures p.getterFlags == getterFlags && p.setterFlags == setterFlags && p.ext == ext
      ensures p.typeParams == [] && p.receiverParameterType == None && p.returnType == None
    {
      p := new PropertyPrinter(sb, flags, name, getterFlags, setterFlags, ext);
    }

    method VisitTypeAlias(flags: Flags, name: string) returns (p: TypeAliasPrinter)
      ensures fresh(p) && p.sb == sb && p.flags == flags && p.name == name
      ensures p.annotations == [] && p.typeParams == [] && p.underlyingType == None && p.expandedType == None
    {
      p := new TypeAliasPrinter(sb, flags, name);
    }

    /** The line `MultiFileClassPartPrinter.print` writes before the part's members. */
    method PrintFacadeClassName(klass: ClassFiles.KotlinClassFile)
      requires klass.MultiFileClassPart?
      modifies sb
      ensures sb.text == old(sb.text) + ("  // facade: " + klass.FacadeClassName()) + LineSeparator
    {
      sb.AppendLine("  // facade: " + klass.FacadeClassName());
    }
  }

  /** `LambdaPrinter` */
  class LambdaPrinter {
    const sb: StringBuilder

    constructor ()
      ensures fresh(sb) && sb.text == "lambda {" + LineSeparator
    {
      var b := new StringBuilder();
      b.AppendLine("lambda {");
      sb := b;
    }

    method VisitFunction(flags: Flags, name: string, jvmSignature: Option<string>) returns (p: FunctionPrinter)
      ensures fresh(p) && p.sb == sb && p.flags == flags && p.name == name && p.jvmSignature == jvmSignature
      ensures p.typeParams == [] && p.params == [] && p.receiverParameterType == None && p.returnType == None
    {
      p := new FunctionPrinter(sb, flags, name, jvmSignature);
    }

    method VisitEnd()
      modifies sb
      ensures sb.text == old(sb.text) + "}" + LineSeparator
    {
      sb.AppendLine("}");
    }
  }

  /** The text `MultiFileClassFacadePrinter.print` builds from the part class names. */
  function MultiFileClassFacadeText(partClassNames: seq<string>): string {
    AfterLines("multi-file class {" + LineSeparator, "  // ", partClassNames) + "}" + LineSeparator
  }

  /** `MultiFileClassFacadePrinter.print` */
  method PrintMultiFileClassFacade(klass: ClassFiles.KotlinClassFile) returns (output: string)
    requires klass.MultiFileClassFacade?
    ensures output == MultiFileClassFacadeText(klass.PartClassNames())
  {
    var sb := new StringBuilder();
    sb.AppendLine("multi-file class {");
    assert sb.text == "multi-file class {" + LineSeparator;
    AppendLines(sb, "  // ", klass.PartClassNames());
    sb.AppendLine("}");
    output := sb.text;
  }

  /** A multi-file class facade is printed as a block with one `  // part` comment line per
      part class, in order. */
  lemma MultiFileClassFacadeForms(partClassNames: seq<string>)
    ensures MultiFileClassFacadeText(partClassNames) ==
      "multi-file class {" + LineSeparator + Concat(ListingLines("  // ", partClassNames)) + "}" + LineSeparator
  {
    AfterLinesListing("multi-file class {" + LineSeparator, "  // ", partClassNames);
  }

  /** The package name a module file shows: `<root>` for the root package. */
  function PresentableName(fqName: string): (r: string)
    ensures fqName == "" ==> r == "<root>"
    ensures fqName != "" ==> r == fqName
  {
    if fqName == "" then "<root>" else fqName
  }

  /** A multi-file class part with its facade, as a module file lists it. */
  function PartEntry(part: (string, string)): string {
    part.0 + " (" + part.1 + ")"
  }

  function PartEntries(parts: seq<(string, string)>): (r: seq<string>)
    ensures |r| == |parts| && forall k :: 0 <= k < |parts| ==> r[k] == PartEntry(parts[k])
  {
    seq(|parts|, k requires 0 <= k < |parts| => PartEntry(parts[k]))
  }

  /** What `visitPackageParts` leaves in a builder that held `before`. */
  function AfterPackageParts(before: string, fqName: string, fileFacades: seq<string>,
                             multiFileClassParts: seq<(string, string)>): string
  {
    var opening := before + ("  package " + PresentableName(fqName) + " {") + LineSeparator;
    AfterLines(AfterLines(opening, "    ", fileFacades), "    ", PartEntries(multiFileClassParts)) + "  }" + LineSeparator
  }

  /** A package of a module file is a block listing its file facades first and then its
      multi-file class parts, each on its own line indented by four spaces. */
  lemma PackagePartsForms(before: string, fqName: string, fileFacades: seq<string>,
                          multiFileClassParts: seq<(string, string)>)
    ensures AfterPackageParts(before, fqName, fileFacades, multiFileClassParts) ==
      before + ("  package " + PresentableName(fqName) + " {") + LineSeparator
      + Concat(ListingLines("    ", fileFacades) + ListingLines("    ", PartEntries(multiFileClassParts)))
      + "  }" + LineSeparator
  {
    var opening := before + ("  package " + PresentableName(fqName) + " {") + LineSeparator;
    AfterLinesListing(opening, "    ", fileFacades);
    AfterLinesListing(AfterLines(opening, "    ", fileFacades), "    ", PartEntries(multiFileClassParts));
    ConcatAppend(ListingLines("    ", fileFacades), ListingLines("    ", PartEntries(multiFileClassParts)));
    AppendAssociative(opening, Concat(ListingLines("    ", fileFacades)),
      Concat(ListingLines("    ", PartEntries(multiFileClassParts))));
  }

  /** `ModuleFilePrinter` */
  class ModuleFilePrinter {
    const sb: StringBuilder

    constructor ()
      ensures fresh(sb) && sb.text == "module {" + LineSeparator
    {
      var b := new StringBuilder();
      b.AppendLine("module {");
      sb := b;
    }

    /** The parts of one package; `multiFileClassParts` holds the map's entries in its
        iteration order. */
    method VisitPackageParts(fqName: string, fileFacades: seq<string>, multiFileClassParts: seq<(string, string)>)
      modifies sb
      ensures sb.text == AfterPackageParts(old(sb.text), fqName, fileFacades, multiFileClassParts)
    {
      sb.AppendLine("  package " + PresentableName(fqName) + " {");
      AppendLines(sb, "    ", fileFacades);
      AppendLines(sb, "    ", PartEntries(multiFileClassParts));
      sb.AppendLine("  }");
    }

    method VisitEnd()
      modifies sb
      ensures sb.text == old(sb.text) + "}" + LineSeparator
    {
      sb.AppendLine("}");
    }
  }
}
