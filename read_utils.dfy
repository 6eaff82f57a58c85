/** Decoding of annotations and their arguments from their protobuf form
    (`readAnnotation`, `readAnnotationArgument`), together with the `Annotation` and
    `AnnotationArgument` types they produce. */
module ReadUtils {
  import opened Wrappers
  import opened Metadata

  type Int8 = x: int | -0x80 <= x < 0x80
  type Int16 = x: int | -0x8000 <= x < 0x8000
  type UInt16 = x: int | 0 <= x < 0x1_0000
  type Int32 = x: int | -0x8000_0000 <= x < 0x8000_0000
  type Int64 = x: int | -0x8000_0000_0000_0000 <= x < 0x8000_0000_0000_0000

  /** `Long.toByte()`: the low 8 bits, read as two's complement. */
  function ToByte(x: Int64): (r: Int8)
    ensures (r - x) % 0x100 == 0
  {
    var low := x % 0x100;
    if low < 0x80 then low else low - 0x100
  }

  /** `Long.toShort()`: the low 16 bits, read as two's complement. */
  function ToShort(x: Int64): (r: Int16)
    ensures (r - x) % 0x1_0000 == 0
  {
    var low := x % 0x1_0000;
    if low < 0x8000 then low else low - 0x1_0000
  }

  /** `Long.toInt()`: the low 32 bits, read as two's complement. */
  function ToInt(x: Int64): (r: Int32)
    ensures (r - x) % 0x1_0000_0000 == 0
  {
    var low := x % 0x1_0000_0000;
    if low < 0x8000_0000 then low else low - 0x1_0000_0000
  }

  /** `Long.toChar()`: the low 16 bits, unsigned (a UTF-16 code unit). */
  function ToChar(x: Int64): (r: UInt16)
    ensures (r - x) % 0x1_0000 == 0
  {
    x % 0x1_0000
  }

  /** `ProtoBuf.Annotation.Argument.Value.Type` */
  datatype ValueType = BYTE | CHAR | SHORT | INT | LONG | FLOAT | DOUBLE | BOOLEAN | STRING | CLASS | ENUM | ANNOTATION | ARRAY

  /** A `Float` or `Double`, kept opaque: only the text its `toString()` gives is used. */
  datatype FloatingPoint = FloatingPoint(text: string)

  /** `ProtoBuf.Annotation.Argument.Value`; `valueType == None` is a tag the decoder does not know. */
  datatype ProtoValue = ProtoValue(
    valueType: Option<ValueType>,
    intValue: Int64,
    floatValue: FloatingPoint,
    doubleValue: FloatingPoint,
    stringValue: int,
    classId: int,
    enumValueId: int,
    annotation: ProtoAnnotation,
    arrayElements: seq<ProtoValue>)

  /** `ProtoBuf.Annotation.Argument` */
  datatype ProtoArgument = ProtoArgument(nameId: int, value: ProtoValue)

  /** `ProtoBuf.Annotation` */
  datatype ProtoAnnotation = ProtoAnnotation(id: int, arguments: seq<ProtoArgument>)

  /** `AnnotationArgument`, the closed union of constant values. */
  datatype AnnotationArgument =
    | ByteValue(byteValue: Int8)
    | CharValue(charValue: UInt16)
    | ShortValue(shortValue: Int16)
    | IntValue(intValue: Int32)
    | LongValue(longValue: Int64)
    | FloatValue(floatValue: FloatingPoint)
    | DoubleValue(doubleValue: FloatingPoint)
    | BooleanValue(booleanValue: bool)
    | StringValue(stringValue: string)
    | KClassValue(className: string)
    | EnumValue(enumClassName: string, enumEntryName: string)
    | AnnotationValue(annotation: Annotation)
    | ArrayValue(elements: seq<AnnotationArgument>)

  /** `Annotation`: its arguments form the insertion-ordered map `toMap` builds. */
  datatype Annotation = Annotation(className: string, arguments: seq<(string, AnnotationArgument)>)

  // ---------------------------------------------------------------------------------
  // The insertion-ordered map `toMap` returns, as an association list

  /** The value stored under `k`, if any. */
  function Lookup<V>(m: seq<(string, V)>, k: string): Option<V> {
    if m == [] then None
    else if m[0].0 == k then Some(m[0].1)
    else Lookup(m[1..], k)
  }

  ghost predicate DistinctKeys<V>(m: seq<(string, V)>) {
    forall i, j :: 0 <= i < j < |m| ==> m[i].0 != m[j].0
  }

  /** `put`: a new key goes to the end; an existing key keeps its place and takes the new value. */
  function Put<V>(m: seq<(string, V)>, k: string, v: V): (r: seq<(string, V)>)
    ensures forall k' :: Lookup(r, k') == if k' == k then Some(v) else Lookup(m, k')
  {
    if m == [] then [(k, v)]
    else if m[0].0 == k then [(k, v)] + m[1..]
    else [m[0]] + Put(m[1..], k, v)
  }

  /** Every pair of `pairs`, put in order into `m`. */
  function PutAll<V>(m: seq<(string, V)>, pairs: seq<(string, V)>): seq<(string, V)>
    decreases |pairs|
  {
    if pairs == [] then m else PutAll(Put(m, pairs[0].0, pairs[0].1), pairs[1..])
  }

  /** `toMap()` */
  function ToMap<V>(pairs: seq<(string, V)>): seq<(string, V)> {
    PutAll([], pairs)
  }

  /** The value of the last pair with key `k`. */
  function LastValue<V>(pairs: seq<(string, V)>, k: string): Option<V> {
    if pairs == [] then None
    else match LastValue(pairs[1..], k)
      case Some(v) => Some(v)
      case None => if pairs[0].0 == k then Some(pairs[0].1) else None
  }

  lemma {:induction false} PutKeepsKeysDistinct<V>(m: seq<(string, V)>, k: string, v: V)
    requires DistinctKeys(m)
    ensures DistinctKeys(Put(m, k, v))
  {
    if m != [] && m[0].0 != k {
      PutKeepsKeysDistinct(m[1..], k, v);
      LookupAbsent(m[1..], m[0].0);
      LookupAbsent(Put(m[1..], k, v), m[0].0);
    }
  }

  /** `Lookup` finds nothing exactly when no pair has the key. */
  lemma {:induction false} LookupAbsent<V>(m: seq<(string, V)>, k: string)
    ensures Lookup(m, k).None? <==> forall i :: 0 <= i < |m| ==> m[i].0 != k
  {
    if m != [] {
      LookupAbsent(m[1..], k);
      assert forall i :: 0 < i < |m| ==> m[i] == m[1..][i - 1];
    }
  }

  /** The map `toMap` builds has each key once, and a key's value is the one the last pair
      with that key carries. */
  lemma {:induction false} ToMapKeepsLastValue<V>(pairs: seq<(string, V)>, k: string)
    ensures DistinctKeys(ToMap(pairs))
    ensures Lookup(ToMap(pairs), k) == LastValue(pairs, k)
  {
    PutAllLookup([], pairs, k);
  }

  lemma {:induction false} PutAllLookup<V>(m: seq<(string, V)>, pairs: seq<(string, V)>, k: string)
    requires DistinctKeys(m)
    ensures DistinctKeys(PutAll(m, pairs))
    ensures Lookup(PutAll(m, pairs), k) == match LastValue(pairs, k) case Some(v) => Some(v) case None => Lookup(m, k)
    decreases |pairs|
  {
    if pairs != [] {
      var m' := Put(m, pairs[0].0, pairs[0].1);
      PutKeepsKeysDistinct(m, pairs[0].0, pairs[0].1);
      PutAllLookup(m', pairs[1..], k);
    }
  }

  // ---------------------------------------------------------------------------------
  // The decoder

  /** `ProtoBuf.Annotation.readAnnotation` */
  function ReadAnnotation(a: ProtoAnnotation, strings: NameResolver): Annotation
    decreases a
  {
    Annotation(strings.getQualifiedClassName(a.id), ToMap(ReadArguments(a.arguments, strings)))
  }

  /** The `argumentList.mapNotNull { ... }` of `readAnnotation`: each argument whose value
      decodes, paired with its name. */
  function ReadArguments(arguments: seq<ProtoArgument>, strings: NameResolver): (r: seq<(string, AnnotationArgument)>)
    ensures |r| <= |arguments|
    decreases arguments
  {
    if arguments == [] then []
    else
      var argument := arguments[0];
      assert argument.value < argument;
      match ReadAnnotationArgument(argument.value, strings)
      case None => ReadArguments(arguments[1..], strings)
      case Some(value) => [(strings.getString(argument.nameId), value)] + ReadArguments(arguments[1..], strings)
  }

  /** `ProtoBuf.Annotation.Argument.Value.readAnnotationArgument`: `None` is "no value". */
  function ReadAnnotationArgument(v: ProtoValue, strings: NameResolver): (r: Option<AnnotationArgument>)
    ensures r.None? <==> v.valueType.None?
    decreases v
  {
    match v.valueType
    case None => None
    case Some(BYTE) => Some(ByteValue(ToByte(v.intValue)))
    case Some(CHAR) => Some(CharValue(ToChar(v.intValue)))
    case Some(SHORT) => Some(ShortValue(ToShort(v.intValue)))
    case Some(INT) => Some(IntValue(ToInt(v.intValue)))
    case Some(LONG) => Some(LongValue(v.intValue))
    case Some(FLOAT) => Some(FloatValue(v.floatValue))
    case Some(DOUBLE) => Some(DoubleValue(v.doubleValue))
    case Some(BOOLEAN) => Some(BooleanValue(v.intValue != 0))
    case Some(STRING) => Some(StringValue(strings.getString(v.stringValue)))
    case Some(CLASS) => Some(KClassValue(strings.getQualifiedClassName(v.classId)))
    case Some(ENUM) => Some(EnumValue(strings.getQualifiedClassName(v.classId), strings.getString(v.enumValueId)))
    case Some(ANNOTATION) => Some(AnnotationValue(ReadAnnotation(v.annotation, strings)))
    case Some(ARRAY) => Some(ArrayValue(ReadArrayElements(v.arrayElements, strings)))
  }

  /** The `arrayElementList.mapNotNull { ... }` of the ARRAY arm. */
  function ReadArrayElements(elements: seq<ProtoValue>, strings: NameResolver): (r: seq<AnnotationArgument>)
    ensures |r| <= |elements|
    decreases elements
  {
    if elements == [] then []
    else
      match ReadAnnotationArgument(elements[0], strings)
      case None => ReadArrayElements(elements[1..], strings)
      case Some(value) => [value] + ReadArrayElements(elements[1..], strings)
  }

  // ---------------------------------------------------------------------------------
  // Properties of the decoder

  /** Decoding a list of array elements distributes over concatenation: elements that
      decode to no value are dropped and the others keep their order. */
  lemma {:induction false} ReadArrayElementsAppend(a: seq<ProtoValue>, b: seq<ProtoValue>, strings: NameResolver)
    ensures ReadArrayElements(a + b, strings) == ReadArrayElements(a, strings) + ReadArrayElements(b, strings)
  {
    if a == [] {
      assert a + b == b;
    } else {
      assert (a + b)[1..] == a[1..] + b;
      ReadArrayElementsAppend(a[1..], b, strings);
    }
  }

  /** Decoding a list of arguments distributes over concatenation: the arguments kept stay
      in wire order, so a later argument on the wire is a later pair of the list. */
  lemma {:induction false} ReadArgumentsAppend(a: seq<ProtoArgument>, b: seq<ProtoArgument>, strings: NameResolver)
    ensures ReadArguments(a + b, strings) == ReadArguments(a, strings) + ReadArguments(b, strings)
  {
    if a == [] {
      assert a + b == b;
    } else {
      assert (a + b)[1..] == a[1..] + b;
      ReadArgumentsAppend(a[1..], b, strings);
    }
  }

  /** A decoded element is the decoding of some wire element, and every element that
      decodes to a value appears. */
  lemma {:induction false} ReadArrayElementsMembers(elements: seq<ProtoValue>, strings: NameResolver, x: AnnotationArgument)
    ensures x in ReadArrayElements(elements, strings) <==>
      exists e :: e in elements && ReadAnnotationArgument(e, strings) == Some(x)
  {
    if elements != [] {
      ReadArrayElementsMembers(elements[1..], strings, x);
      if ReadAnnotationArgument(elements[0], strings) == Some(x) {
        assert elements[0] in elements;
      }
      forall e | e in elements[1..] ensures e in elements { }
      forall e | e in elements && e != elements[0] ensures e in elements[1..] {
        var i :| 0 <= i < |elements| && elements[i] == e;
        assert elements[1..][i - 1] == e;
      }
    }
  }

  /** When every element has a known tag, nothing is dropped. */
  lemma {:induction false} ReadArrayElementsAllKnown(elements: seq<ProtoValue>, strings: NameResolver)
    requires forall i :: 0 <= i < |elements| ==> elements[i].valueType.Some?
    ensures |ReadArrayElements(elements, strings)| == |elements|
    ensures forall i :: 0 <= i < |elements| ==>
      Some(ReadArrayElements(elements, strings)[i]) == ReadAnnotationArgument(elements[i], strings)
  {
    if elements != [] {
      ReadArrayElementsAllKnown(elements[1..], strings);
    }
  }

  /** An array of one known and one unknown element decodes to an array of length 1. */
  lemma ArrayWithUnknownElement(known: ProtoValue, unknown: ProtoValue, strings: NameResolver)
    requires known.valueType.Some? && unknown.valueType.None?
    ensures ReadArrayElements([known, unknown], strings) == [ReadAnnotationArgument(known, strings).value]
  {
    assert [known, unknown][1..] == [unknown];
  }

  /** The argument list keeps exactly the arguments whose value decodes, each keyed by the
      string its name id resolves to. */
  lemma {:induction false} ReadArgumentsMembers(arguments: seq<ProtoArgument>, strings: NameResolver,
                                                k: string, x: AnnotationArgument)
    ensures (k, x) in ReadArguments(arguments, strings) <==>
      exists a :: a in arguments && strings.getString(a.nameId) == k && ReadAnnotationArgument(a.value, strings) == Some(x)
  {
    if arguments != [] {
      ReadArgumentsMembers(arguments[1..], strings, k, x);
      var a0 := arguments[0];
      if strings.getString(a0.nameId) == k && ReadAnnotationArgument(a0.value, strings) == Some(x) {
        assert a0 in arguments;
      }
      forall a | a in arguments[1..] ensures a in arguments { }
      forall a | a in arguments && a != a0 ensures a in arguments[1..] {
        var i :| 0 <= i < |arguments| && arguments[i] == a;
        assert arguments[1..][i - 1] == a;
      }
    }
  }

  /** An annotation's class name comes from `getQualifiedClassName`; its map has one
      entry per name, holding the value of the last argument with that name whose value
      decodes. */
  lemma ReadAnnotationArguments(a: ProtoAnnotation, strings: NameResolver, k: string)
    ensures ReadAnnotation(a, strings).className == strings.getQualifiedClassName(a.id)
    ensures DistinctKeys(ReadAnnotation(a, strings).arguments)
    ensures Lookup(ReadAnnotation(a, strings).arguments, k) == LastValue(ReadArguments(a.arguments, strings), k)
  {
    ToMapKeepsLastValue(ReadArguments(a.arguments, strings), k);
  }

  /** The last pair with a key in two lists one after the other is the one in the second
      list when it has one. */
  lemma {:induction false} LastValueAppend<V>(p: seq<(string, V)>, q: seq<(string, V)>, k: string)
    ensures LastValue(p + q, k) == if LastValue(q, k).Some? then LastValue(q, k) else LastValue(p, k)
  {
    if p == [] {
      assert p + q == q;
    } else {
      assert (p + q)[1..] == p[1..] + q;
      LastValueAppend(p[1..], q, k);
    }
  }

  /** Of two arguments with the same name, the map keeps the one later on the wire: a name
      given among the `later` arguments takes its value from there. */
  lemma LaterArgumentWins(id: int, earlier: seq<ProtoArgument>, later: seq<ProtoArgument>, strings: NameResolver,
                          k: string)
    ensures var m := ReadAnnotation(ProtoAnnotation(id, earlier + later), strings).arguments;
      var fromLater := LastValue(ReadArguments(later, strings), k);
      Lookup(m, k) == if fromLater.Some? then fromLater else LastValue(ReadArguments(earlier, strings), k)
  {
    ReadAnnotationArguments(ProtoAnnotation(id, earlier + later), strings, k);
    ReadArgumentsAppend(earlier, later, strings);
    LastValueAppend(ReadArguments(earlier, strings), ReadArguments(later, strings), k);
  }

  /** The scalar arms: BOOLEAN is `intValue != 0`, the narrow integer arms take the low
      bits of `intValue`, LONG keeps it, names resolve through the name resolver. */
  lemma ReadScalarArguments(v: ProtoValue, strings: NameResolver)
    ensures v.valueType == Some(BOOLEAN) ==> ReadAnnotationArgument(v, strings) == Some(BooleanValue(v.intValue != 0))
    ensures v.valueType == Some(LONG) ==> ReadAnnotationArgument(v, strings) == Some(LongValue(v.intValue))
    ensures v.valueType == Some(BYTE) ==> ReadAnnotationArgument(v, strings) == Some(ByteValue(ToByte(v.intValue)))
    ensures v.valueType == Some(INT) ==> ReadAnnotationArgument(v, strings) == Some(IntValue(ToInt(v.intValue)))
    ensures v.valueType == Some(INT) && -0x8000_0000 <= v.intValue < 0x8000_0000 ==>
      ReadAnnotationArgument(v, strings) == Some(IntValue(v.intValue))
    ensures v.valueType == Some(SHORT) ==> ReadAnnotationArgument(v, strings) == Some(ShortValue(ToShort(v.intValue)))
    ensures v.valueType == Some(CHAR) ==> ReadAnnotationArgument(v, strings) == Some(CharValue(ToChar(v.intValue)))
    ensures v.valueType == Some(STRING) ==> ReadAnnotationArgument(v, strings) == Some(StringValue(strings.getString(v.stringValue)))
    ensures v.valueType == Some(CLASS) ==>
      ReadAnnotationArgument(v, strings) == Some(KClassValue(strings.getQualifiedClassName(v.classId)))
    ensures v.valueType == Some(ANNOTATION) ==>
      ReadAnnotationArgument(v, strings) == Some(AnnotationValue(ReadAnnotation(v.annotation, strings)))
    ensures v.valueType == Some(ENUM) ==>
      ReadAnnotationArgument(v, strings) == Some(EnumValue(strings.getQualifiedClassName(v.classId), strings.getString(v.enumValueId)))
  {
  }
}
