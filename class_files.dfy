/** The seven kinds of Kotlin class file metadata (`KotlinClassFile`), the dispatcher that
    classifies an envelope into one of them (`KotlinClassFile.read`), and the writers that
    pack a visited declaration back into an envelope (`KotlinClassFile.*.Writer.write`).

    The protobuf codec is not modelled: its readers and encoders are the fields of a
    `Codec` value that every operation takes as a parameter, and the decoded records
    are abstract types. */
module ClassFiles {
  import opened Wrappers
  import opened Metadata

  /** `ProtoBuf.Class`, `ProtoBuf.Package`, `ProtoBuf.Function`: decoded records. */
  type ClassProto(==)
  type PackageProto(==)
  type FunctionProto(==)
  /** The `JvmStringTable` a writer fills while it is being visited. */
  type StringTable(==)

  /** The protobuf and bit-encoding codec (`JvmProtoBufUtil.read*DataFrom`,
      `BitEncoding.encodeBytes(proto.toByteArray())`, `JvmStringTable`). Each reader is
      given `data1` and `data2` and may throw. */
  datatype Codec = Codec(
    readClassDataFrom: (seq<string>, seq<string>) -> Result<(NameResolver, ClassProto), Throwable>,
    readPackageDataFrom: (seq<string>, seq<string>) -> Result<(NameResolver, PackageProto), Throwable>,
    readFunctionDataFrom: (seq<string>, seq<string>) -> Result<(NameResolver, FunctionProto), Throwable>,
    encodeClass: ClassProto -> seq<string>,
    encodePackage: PackageProto -> seq<string>,
    encodeFunction: FunctionProto -> seq<string>,
    /** `strings.strings`: the table's strings, stored as `data2` */
    strings: StringTable -> seq<string>,
    /** `JvmNameResolver(strings.serialize(), strings.strings)` */
    nameResolver: StringTable -> NameResolver)

  /** The sealed class `KotlinClassFile`: every variant keeps the envelope it came from. */
  datatype KotlinClassFile =
    | Class(metadata: KotlinMetadata, classProto: ClassProto, nameResolver: NameResolver)
    | FileFacade(metadata: KotlinMetadata, packageProto: PackageProto, nameResolver: NameResolver)
    | Lambda(metadata: KotlinMetadata, functionProto: FunctionProto, nameResolver: NameResolver)
    | SyntheticClass(metadata: KotlinMetadata)
    | MultiFileClassFacade(metadata: KotlinMetadata)
    | MultiFileClassPart(metadata: KotlinMetadata, packageProto: PackageProto, nameResolver: NameResolver)
    | Unknown(metadata: KotlinMetadata)
  {
    /** `MultiFileClassFacade.partClassNames` */
    function PartClassNames(): seq<string>
      requires MultiFileClassFacade?
    {
      metadata.data1
    }

    /** `MultiFileClassPart.facadeClassName` */
    function FacadeClassName(): string
      requires MultiFileClassPart?
    {
      metadata.extraString
    }
  }

  const NO_D1_MESSAGE: string := "No d1 in metadata"
  const READ_FAILURE_MESSAGE: string := "Exception occurred when reading Kotlin metadata"
  const VISIT_FUNCTION_MISSING_MESSAGE: string := "LambdaVisitor.visitFunction has not been called"

  /** The version family `read` accepts: 1.1 followed by anything. */
  predicate IsSupportedVersion(version: seq<int>) {
    |version| >= 2 && version[..2] == [1, 1]
  }

  /** `KotlinMetadata.readData()`: `data1`, or an exception when it is empty. */
  function ReadData(m: KotlinMetadata): Result<seq<string>, Throwable> {
    if m.data1 != [] then Success(m.data1)
    else Failure(InconsistentKotlinMetadataException(NO_D1_MESSAGE, None))
  }

  /** The `when (metadata.kind)` inside `read`'s `try`. */
  function Decode(codec: Codec, m: KotlinMetadata): Result<KotlinClassFile, Throwable> {
    if m.kind == CLASS_KIND then
      var d1 :- ReadData(m);
      var decoded :- codec.readClassDataFrom(d1, m.data2);
      Success(Class(m, decoded.1, decoded.0))
    else if m.kind == FILE_FACADE_KIND then
      var d1 :- ReadData(m);
      var decoded :- codec.readPackageDataFrom(d1, m.data2);
      Success(FileFacade(m, decoded.1, decoded.0))
    else if m.kind == SYNTHETIC_CLASS_KIND then
      if m.data1 != [] then
        var decoded :- codec.readFunctionDataFrom(m.data1, m.data2);
        Success(Lambda(m, decoded.1, decoded.0))
      else
        Success(SyntheticClass(m))
    else if m.kind == MULTI_FILE_CLASS_FACADE_KIND then
      Success(MultiFileClassFacade(m))
    else if m.kind == MULTI_FILE_CLASS_PART_KIND then
      var d1 :- ReadData(m);
      var decoded :- codec.readPackageDataFrom(d1, m.data2);
      Success(MultiFileClassPart(m, decoded.1, decoded.0))
    else
      Success(Unknown(m))
  }

  /** The two `catch` clauses of `read`. */
  function WrapReadFailure(e: Throwable): Throwable {
    if e.InconsistentKotlinMetadataException? then e
    else InconsistentKotlinMetadataException(READ_FAILURE_MESSAGE, Some(e))
  }

  /** `KotlinClassFile.read`: `Success(None)` is the `null` result, `Failure` a thrown exception. */
  function Read(codec: Codec, m: KotlinMetadata): Result<Option<KotlinClassFile>, Throwable> {
    var version := m.metadataVersion;
    if |version| < 2 || version[0] != 1 || version[1] != 1 then Success(None)
    else
      match Decode(codec, m)
      case Success(f) => Success(Some(f))
      case Failure(e) => Failure(WrapReadFailure(e))
  }

  // ---------------------------------------------------------------------------------
  // Properties of read

  /** `read` returns null exactly when the version is not 1.1.*; it never returns null
      for a supported version, whatever the kind. */
  lemma ReadNullIffUnsupportedVersion(codec: Codec, m: KotlinMetadata)
    ensures Read(codec, m) == Success(None) <==> !IsSupportedVersion(m.metadataVersion)
  {
    var v := m.metadataVersion;
    if |v| >= 2 && v[0] == 1 && v[1] == 1 {
      assert v[..2] == [1, 1];
    } else if |v| >= 2 {
      assert v[..2][0] == v[0] && v[..2][1] == v[1];
    }
  }

  /** Components after the first two are ignored: two supported versions give the same
      outcome, up to the envelope the variant keeps. */
  lemma ReadIgnoresLaterVersionComponents(codec: Codec, m: KotlinMetadata, version: seq<int>)
    requires IsSupportedVersion(m.metadataVersion) && IsSupportedVersion(version)
    ensures var m' := m.(metadataVersion := version);
      && (Read(codec, m).Failure? ==> Read(codec, m') == Read(codec, m))
      && (Read(codec, m).Success? ==>
            Read(codec, m').Success? && Read(codec, m).value.Some? && Read(codec, m').value.Some? &&
            Read(codec, m').value.value == Read(codec, m).value.value.(metadata := m'))
  {
    assert m.metadataVersion[..2][0] == 1 && m.metadataVersion[..2][1] == 1;
    assert version[..2][0] == 1 && version[..2][1] == 1;
  }

  /** The kinds that need a primary record fail with "No d1 in metadata", unwrapped,
      when `data1` is empty, whatever the codec would do. */
  lemma ReadMissingData1(codec: Codec, m: KotlinMetadata)
    requires IsSupportedVersion(m.metadataVersion)
    requires m.kind in {CLASS_KIND, FILE_FACADE_KIND, MULTI_FILE_CLASS_PART_KIND}
    requires m.data1 == []
    ensures Read(codec, m) == Failure(InconsistentKotlinMetadataException(NO_D1_MESSAGE, None))
  {
    ReadNullIffUnsupportedVersion(codec, m);
  }

  /** The synthetic-class kind is a Lambda iff `data1` is non-empty, a SyntheticClass
      otherwise, and it never throws for an empty `data1`. */
  lemma ReadSyntheticClassKind(codec: Codec, m: KotlinMetadata)
    requires IsSupportedVersion(m.metadataVersion)
    requires m.kind == SYNTHETIC_CLASS_KIND
    ensures m.data1 == [] ==> Read(codec, m) == Success(Some(SyntheticClass(m)))
    ensures Read(codec, m).Success? ==>
      Read(codec, m).value.Some? && (Read(codec, m).value.value.Lambda? <==> m.data1 != [])
  {
    ReadNullIffUnsupportedVersion(codec, m);
  }

  /** The multi-file facade kind decodes nothing: it never fails and its part class
      names are `data1` itself. */
  lemma ReadMultiFileClassFacade(codec: Codec, m: KotlinMetadata)
    requires IsSupportedVersion(m.metadataVersion)
    requires m.kind == MULTI_FILE_CLASS_FACADE_KIND
    ensures Read(codec, m) == Success(Some(MultiFileClassFacade(m)))
    ensures Read(codec, m).value.value.PartClassNames() == m.data1
  {
    ReadNullIffUnsupportedVersion(codec, m);
  }

  /** A kind outside the five known codes is Unknown, carrying the same envelope. */
  lemma ReadUnknownKind(codec: Codec, m: KotlinMetadata)
    requires IsSupportedVersion(m.metadataVersion)
    requires !IsKnownKind(m.kind)
    ensures Read(codec, m) == Success(Some(Unknown(m)))
  {
    ReadNullIffUnsupportedVersion(codec, m);
  }

  /** A successful read keeps the envelope and picks the variant by kind alone. */
  lemma ReadVariantMatchesKind(codec: Codec, m: KotlinMetadata)
    requires Read(codec, m).Success? && Read(codec, m).value.Some?
    ensures var f := Read(codec, m).value.value;
      && f.metadata == m
      && (f.Class? <==> m.kind == CLASS_KIND)
      && (f.FileFacade? <==> m.kind == FILE_FACADE_KIND)
      && (f.Lambda? || f.SyntheticClass? <==> m.kind == SYNTHETIC_CLASS_KIND)
      && (f.MultiFileClassFacade? <==> m.kind == MULTI_FILE_CLASS_FACADE_KIND)
      && (f.MultiFileClassPart? <==> m.kind == MULTI_FILE_CLASS_PART_KIND)
      && (f.Unknown? <==> !IsKnownKind(m.kind))
  {
  }

  /** A class record the codec decodes becomes a Class holding that record and resolver. */
  lemma ReadDecodesClass(codec: Codec, m: KotlinMetadata, nr: NameResolver, p: ClassProto)
    requires IsSupportedVersion(m.metadataVersion) && m.kind == CLASS_KIND && m.data1 != []
    requires codec.readClassDataFrom(m.data1, m.data2) == Success((nr, p))
    ensures Read(codec, m) == Success(Some(Class(m, p, nr)))
  {
    ReadNullIffUnsupportedVersion(codec, m);
  }

  /** A package record the codec decodes becomes a FileFacade or a MultiFileClassPart,
      as the kind says. */
  lemma ReadDecodesPackage(codec: Codec, m: KotlinMetadata, nr: NameResolver, p: PackageProto)
    requires IsSupportedVersion(m.metadataVersion) && m.data1 != []
    requires m.kind == FILE_FACADE_KIND || m.kind == MULTI_FILE_CLASS_PART_KIND
    requires codec.readPackageDataFrom(m.data1, m.data2) == Success((nr, p))
    ensures Read(codec, m) == Success(Some(
      if m.kind == FILE_FACADE_KIND then FileFacade(m, p, nr) else MultiFileClassPart(m, p, nr)))
  {
    ReadNullIffUnsupportedVersion(codec, m);
  }

  /** A function record the codec decodes from a non-empty `data1` becomes a Lambda. */
  lemma ReadDecodesFunction(codec: Codec, m: KotlinMetadata, nr: NameResolver, p: FunctionProto)
    requires IsSupportedVersion(m.metadataVersion) && m.kind == SYNTHETIC_CLASS_KIND && m.data1 != []
    requires codec.readFunctionDataFrom(m.data1, m.data2) == Success((nr, p))
    ensures Read(codec, m) == Success(Some(Lambda(m, p, nr)))
  {
    ReadNullIffUnsupportedVersion(codec, m);
  }

  /** A failure of the codec leaves `read` wrapped exactly once: an
      InconsistentKotlinMetadataException is rethrown as it is, anything else becomes one
      with the original as its cause. */
  lemma ReadWrapsCodecFailure(codec: Codec, m: KotlinMetadata, e: Throwable)
    requires IsSupportedVersion(m.metadataVersion) && m.data1 != []
    requires
      || (m.kind == CLASS_KIND && codec.readClassDataFrom(m.data1, m.data2).Failure?
          && codec.readClassDataFrom(m.data1, m.data2).error == e)
      || (m.kind in {FILE_FACADE_KIND, MULTI_FILE_CLASS_PART_KIND} && codec.readPackageDataFrom(m.data1, m.data2).Failure?
          && codec.readPackageDataFrom(m.data1, m.data2).error == e)
      || (m.kind == SYNTHETIC_CLASS_KIND && codec.readFunctionDataFrom(m.data1, m.data2).Failure?
          && codec.readFunctionDataFrom(m.data1, m.data2).error == e)
    ensures e.InconsistentKotlinMetadataException? ==> Read(codec, m) == Failure(e)
    ensures !e.InconsistentKotlinMetadataException? ==>
      Read(codec, m) == Failure(InconsistentKotlinMetadataException(READ_FAILURE_MESSAGE, Some(e)))
  {
    ReadNullIffUnsupportedVersion(codec, m);
  }

  /** Whatever `read` throws is an InconsistentKotlinMetadataException. */
  lemma ReadThrowsOnlyInconsistentMetadata(codec: Codec, m: KotlinMetadata)
    ensures Read(codec, m).Failure? ==> Read(codec, m).error.InconsistentKotlinMetadataException?
  {
  }

  // ---------------------------------------------------------------------------------
  // Writers: each `write` snapshots the writer's record and string table into an envelope

  /** What `Class.Writer.write` returns. */
  function WrittenClass(codec: Codec, t: ClassProto, c: StringTable,
                        metadataVersion: seq<int>, bytecodeVersion: seq<int>, extraInt: int): KotlinClassFile
  {
    var m := KotlinMetadata(CLASS_KIND, metadataVersion, bytecodeVersion,
                            codec.encodeClass(t), codec.strings(c), "", "", extraInt);
    Class(m, t, codec.nameResolver(c))
  }

  /** What `FileFacade.Writer.write` returns. */
  function WrittenFileFacade(codec: Codec, t: PackageProto, c: StringTable,
                             metadataVersion: seq<int>, bytecodeVersion: seq<int>, extraInt: int): KotlinClassFile
  {
    var m := KotlinMetadata(FILE_FACADE_KIND, metadataVersion, bytecodeVersion,
                            codec.encodePackage(t), codec.strings(c), "", "", extraInt);
    FileFacade(m, t, codec.nameResolver(c))
  }

  /** What `Lambda.Writer.write` returns, or throws when no function was visited. */
  function WrittenLambda(codec: Codec, t: Option<FunctionProto>, c: StringTable,
                         metadataVersion: seq<int>, bytecodeVersion: seq<int>, extraInt: int): Result<KotlinClassFile, Throwable>
  {
    match t
    case None => Failure(IllegalStateException(VISIT_FUNCTION_MISSING_MESSAGE))
    case Some(proto) =>
      var m := KotlinMetadata(SYNTHETIC_CLASS_KIND, metadataVersion, bytecodeVersion,
                              codec.encodeFunction(proto), codec.strings(c), "", "", extraInt);
      Success(Lambda(m, proto, codec.nameResolver(c)))
  }

  /** What `SyntheticClass.Writer.write` returns. */
  function WrittenSyntheticClass(metadataVersion: seq<int>, bytecodeVersion: seq<int>, extraInt: int): KotlinClassFile {
    SyntheticClass(KotlinMetadata(SYNTHETIC_CLASS_KIND, metadataVersion, bytecodeVersion, [], [], "", "", extraInt))
  }

  /** What `MultiFileClassFacade.Writer.write` returns. */
  function WrittenMultiFileClassFacade(partClassNames: seq<string>,
                                       metadataVersion: seq<int>, bytecodeVersion: seq<int>, extraInt: int): KotlinClassFile
  {
    MultiFileClassFacade(KotlinMetadata(MULTI_FILE_CLASS_FACADE_KIND, metadataVersion, bytecodeVersion,
                                        partClassNames, [], "", "", extraInt))
  }

  /** What `MultiFileClassPart.Writer.write` returns. */
  function WrittenMultiFileClassPart(codec: Codec, t: PackageProto, c: StringTable, facadeClassName: string,
                                     metadataVersion: seq<int>, bytecodeVersion: seq<int>, extraInt: int): KotlinClassFile
  {
    var m := KotlinMetadata(MULTI_FILE_CLASS_PART_KIND, metadataVersion, bytecodeVersion,
                            codec.encodePackage(t), codec.strings(c), facadeClassName, "", extraInt);
    MultiFileClassPart(m, t, codec.nameResolver(c))
  }

  /** `Class.Writer`: `t` is the record its visitor callbacks built (`t.build()`), `c` the
      string table they filled. */
  class ClassWriter {
    var t: ClassProto
    var c: StringTable

    constructor (t: ClassProto, c: StringTable)
      ensures this.t == t && this.c == c
    {
      this.t := t;
      this.c := c;
    }

    method Write(codec: Codec, metadataVersion: seq<int>, bytecodeVersion: seq<int>, extraInt: int)
      returns (r: KotlinClassFile)
      ensures r == WrittenClass(codec, t, c, metadataVersion, bytecodeVersion, extraInt)
    {
      var proto := t;
      var d1 := codec.encodeClass(proto);
      var d2 := codec.strings(c);
      var metadata := KotlinMetadata(CLASS_KIND, metadataVersion, bytecodeVersion, d1, d2, "", "", extraInt);
      r := Class(metadata, proto, codec.nameResolver(c));
    }
  }

  /** `FileFacade.Writer` */
  class FileFacadeWriter {
    var t: PackageProto
    var c: StringTable

    constructor (t: PackageProto, c: StringTable)
      ensures this.t == t && this.c == c
    {
      this.t := t;
      this.c := c;
    }

    method Write(codec: Codec, metadataVersion: seq<int>, bytecodeVersion: seq<int>, extraInt: int)
      returns (r: KotlinClassFile)
      ensures r == WrittenFileFacade(codec, t, c, metadataVersion, bytecodeVersion, extraInt)
    {
      var proto := t;
      var d1 := codec.encodePackage(proto);
      var d2 := codec.strings(c);
      var metadata := KotlinMetadata(FILE_FACADE_KIND, metadataVersion, bytecodeVersion, d1, d2, "", "", extraInt);
      r := FileFacade(metadata, proto, codec.nameResolver(c));
    }
  }

  /** `Lambda.Writer`: its record stays null until `visitFunction` is called. */
  class LambdaWriter {
    var t: Option<FunctionProto>
    var c: StringTable

    constructor (c: StringTable)
      ensures t == None && this.c == c
    {
      t := None;
      this.c := c;
    }

    /** `visitFunction` installs the record that the returned function visitor builds. */
    method VisitFunction(proto: FunctionProto)
      modifies this
      ensures t == Some(proto) && c == old(c)
    {
      t := Some(proto);
    }

    method Write(codec: Codec, metadataVersion: seq<int>, bytecodeVersion: seq<int>, extraInt: int)
      returns (r: Result<KotlinClassFile, Throwable>)
      ensures r == WrittenLambda(codec, t, c, metadataVersion, bytecodeVersion, extraInt)
      ensures r.Failure? <==> t == None
    {
      if t == None {
        return Failure(IllegalStateException(VISIT_FUNCTION_MISSING_MESSAGE));
      }
      var proto := t.value;
      var d1 := codec.encodeFunction(proto);
      var d2 := codec.strings(c);
      var metadata := KotlinMetadata(SYNTHETIC_CLASS_KIND, metadataVersion, bytecodeVersion, d1, d2, "", "", extraInt);
      r := Success(Lambda(metadata, proto, codec.nameResolver(c)));
    }
  }

  /** `SyntheticClass.Writer`: no state; both data arrays are empty. */
  class SyntheticClassWriter {
    constructor ()
    {
    }

    method Write(metadataVersion: seq<int>, bytecodeVersion: seq<int>, extraInt: int) returns (r: KotlinClassFile)
      ensures r == WrittenSyntheticClass(metadataVersion, bytecodeVersion, extraInt)
    {
      var metadata := KotlinMetadata(SYNTHETIC_CLASS_KIND, metadataVersion, bytecodeVersion, [], [], "", "", extraInt);
      r := SyntheticClass(metadata);
    }
  }

  /** `MultiFileClassFacade.Writer`: no state; the part names become `data1`. */
  class MultiFileClassFacadeWriter {
    constructor ()
    {
    }

    method Write(partClassNames: seq<string>, metadataVersion: seq<int>, bytecodeVersion: seq<int>, extraInt: int)
      returns (r: KotlinClassFile)
      ensures r == WrittenMultiFileClassFacade(partClassNames, metadataVersion, bytecodeVersion, extraInt)
    {
      var metadata := KotlinMetadata(MULTI_FILE_CLASS_FACADE_KIND, metadataVersion, bytecodeVersion,
                                     partClassNames, [], "", "", extraInt);
      r := MultiFileClassFacade(metadata);
    }
  }

  /** `MultiFileClassPart.Writer` */
  class MultiFileClassPartWriter {
    var t: PackageProto
    var c: StringTable

    constructor (t: PackageProto, c: StringTable)
      ensures this.t == t && this.c == c
    {
      this.t := t;
      this.c := c;
    }

    method Write(codec: Codec, facadeClassName: string,
                 metadataVersion: seq<int>, bytecodeVersion: seq<int>, extraInt: int)
      returns (r: KotlinClassFile)
      ensures r == WrittenMultiFileClassPart(codec, t, c, facadeClassName, metadataVersion, bytecodeVersion, extraInt)
    {
      var proto := t;
      var d1 := codec.encodePackage(proto);
      var d2 := codec.strings(c);
      var metadata := KotlinMetadata(MULTI_FILE_CLASS_PART_KIND, metadataVersion, bytecodeVersion,
                                     d1, d2, facadeClassName, "", extraInt);
      r := MultiFileClassPart(metadata, proto, codec.nameResolver(c));
    }
  }

  // ---------------------------------------------------------------------------------
  // Properties of the writers

  /** Each writer stamps its own kind, the given versions and `extraInt`, and an empty
      `packageName`; only the multi-file part writer sets `extraString`, which
      `facadeClassName` reads back. */
  lemma WritersStampEnvelope(codec: Codec, cp: ClassProto, pp: PackageProto, fp: FunctionProto, c: StringTable,
                             names: seq<string>, facade: string, mv: seq<int>, bv: seq<int>, x: int)
    ensures var ms := [WrittenClass(codec, cp, c, mv, bv, x).metadata,
                       WrittenFileFacade(codec, pp, c, mv, bv, x).metadata,
                       WrittenLambda(codec, Some(fp), c, mv, bv, x).value.metadata,
                       WrittenSyntheticClass(mv, bv, x).metadata,
                       WrittenMultiFileClassFacade(names, mv, bv, x).metadata,
                       WrittenMultiFileClassPart(codec, pp, c, facade, mv, bv, x).metadata];
      && (forall i :: 0 <= i < |ms| ==>
            ms[i].metadataVersion == mv && ms[i].bytecodeVersion == bv && ms[i].extraInt == x && ms[i].packageName == ""
            && IsKnownKind(ms[i].kind))
      && (forall i :: 0 <= i < 5 ==> ms[i].extraString == "")
      && ms[0].kind == CLASS_KIND && ms[1].kind == FILE_FACADE_KIND
      && ms[2].kind == SYNTHETIC_CLASS_KIND && ms[3].kind == SYNTHETIC_CLASS_KIND
      && ms[4].kind == MULTI_FILE_CLASS_FACADE_KIND && ms[5].kind == MULTI_FILE_CLASS_PART_KIND
      && WrittenMultiFileClassPart(codec, pp, c, facade, mv, bv, x).FacadeClassName() == facade
  {
  }

  /** Reading back what the class writer wrote gives the same record, provided the codec
      decodes its own encoding, and that encoding is not empty. */
  lemma ClassWriterRoundTrip(codec: Codec, t: ClassProto, c: StringTable,
                             mv: seq<int>, bv: seq<int>, x: int, nr: NameResolver)
    requires IsSupportedVersion(mv)
    requires codec.encodeClass(t) != []
    requires codec.readClassDataFrom(codec.encodeClass(t), codec.strings(c)) == Success((nr, t))
    ensures var w := WrittenClass(codec, t, c, mv, bv, x);
      Read(codec, w.metadata) == Success(Some(Class(w.metadata, t, nr)))
  {
    ReadDecodesClass(codec, WrittenClass(codec, t, c, mv, bv, x).metadata, nr, t);
  }

  /** An empty encoding cannot be read back: the class writer's output then fails with
      "No d1 in metadata". */
  lemma ClassWriterEmptyRecord(codec: Codec, t: ClassProto, c: StringTable, mv: seq<int>, bv: seq<int>, x: int)
    requires IsSupportedVersion(mv)
    requires codec.encodeClass(t) == []
    ensures Read(codec, WrittenClass(codec, t, c, mv, bv, x).metadata)
         == Failure(InconsistentKotlinMetadataException(NO_D1_MESSAGE, None))
  {
    ReadMissingData1(codec, WrittenClass(codec, t, c, mv, bv, x).metadata);
  }

  /** Reading back the file facade writer's output gives the same package record. */
  lemma FileFacadeWriterRoundTrip(codec: Codec, t: PackageProto, c: StringTable,
                                  mv: seq<int>, bv: seq<int>, x: int, nr: NameResolver)
    requires IsSupportedVersion(mv)
    requires codec.encodePackage(t) != []
    requires codec.readPackageDataFrom(codec.encodePackage(t), codec.strings(c)) == Success((nr, t))
    ensures var w := WrittenFileFacade(codec, t, c, mv, bv, x);
      Read(codec, w.metadata) == Success(Some(FileFacade(w.metadata, t, nr)))
  {
    ReadDecodesPackage(codec, WrittenFileFacade(codec, t, c, mv, bv, x).metadata, nr, t);
  }

  /** Reading back the lambda writer's output gives the same function record; with an
      empty encoding it reads back as a SyntheticClass instead. */
  lemma LambdaWriterRoundTrip(codec: Codec, t: FunctionProto, c: StringTable,
                              mv: seq<int>, bv: seq<int>, x: int, nr: NameResolver)
    requires IsSupportedVersion(mv)
    requires codec.encodeFunction(t) != [] ==>
      codec.readFunctionDataFrom(codec.encodeFunction(t), codec.strings(c)) == Success((nr, t))
    ensures var w := WrittenLambda(codec, Some(t), c, mv, bv, x).value;
      Read(codec, w.metadata) == Success(Some(
        if codec.encodeFunction(t) != [] then Lambda(w.metadata, t, nr) else SyntheticClass(w.metadata)))
  {
    var m := WrittenLambda(codec, Some(t), c, mv, bv, x).value.metadata;
    if codec.encodeFunction(t) != [] {
      ReadDecodesFunction(codec, m, nr, t);
    } else {
      ReadSyntheticClassKind(codec, m);
    }
  }

  /** The synthetic class writer's output reads back as a SyntheticClass at any 1.1.*
      version, whatever the codec. */
  lemma SyntheticClassWriterRoundTrip(codec: Codec, mv: seq<int>, bv: seq<int>, x: int)
    requires IsSupportedVersion(mv)
    ensures var w := WrittenSyntheticClass(mv, bv, x);
      Read(codec, w.metadata) == Success(Some(w))
  {
    ReadSyntheticClassKind(codec, WrittenSyntheticClass(mv, bv, x).metadata);
  }

  /** The part class names given to the facade writer are the ones read back. */
  lemma MultiFileClassFacadeWriterRoundTrip(codec: Codec, names: seq<string>, mv: seq<int>, bv: seq<int>, x: int)
    requires IsSupportedVersion(mv)
    ensures var w := WrittenMultiFileClassFacade(names, mv, bv, x);
      Read(codec, w.metadata) == Success(Some(w)) && Read(codec, w.metadata).value.value.PartClassNames() == names
  {
    ReadMultiFileClassFacade(codec, WrittenMultiFileClassFacade(names, mv, bv, x).metadata);
  }

  /** Reading back the multi-file part writer's output gives the same package record and
      the facade name it was given. */
  lemma MultiFileClassPartWriterRoundTrip(codec: Codec, t: PackageProto, c: StringTable, facade: string,
                                          mv: seq<int>, bv: seq<int>, x: int, nr: NameResolver)
    requires IsSupportedVersion(mv)
    requires codec.encodePackage(t) != []
    requires codec.readPackageDataFrom(codec.encodePackage(t), codec.strings(c)) == Success((nr, t))
    ensures var w := WrittenMultiFileClassPart(codec, t, c, facade, mv, bv, x);
      && Read(codec, w.metadata) == Success(Some(MultiFileClassPart(w.metadata, t, nr)))
      && Read(codec, w.metadata).value.value.FacadeClassName() == facade
  {
    ReadDecodesPackage(codec, WrittenMultiFileClassPart(codec, t, c, facade, mv, bv, x).metadata, nr, t);
  }
}
