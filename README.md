# Kotlin class-file metadata: classification, annotation decoding, the `kotlinp` printer and the API-usage signature rules

This project is a Dafny model of four pieces of the Kotlin repository. Each reads compiled-class metadata or renders it as text.

- **`KotlinClassFile`** (`class_files.dfy`, module `ClassFiles`). `read` classifies a kind-tagged `KotlinMetadata` envelope into one of seven variants:
  - it returns null for an unsupported metadata version;
  - it throws an `InconsistentKotlinMetadataException` when the data is missing or cannot be decoded.

  There is a `Writer` per variant. Each one snapshots what it was given into a new envelope. The protobuf and bit-encoding codec is a `Codec` value of function fields, and any reader in it may fail. The decoded records are abstract types.
- **`readUtils`** (`read_utils.dfy`, module `ReadUtils`). This is the recursive decoder from protobuf annotation values to the closed union `AnnotationArgument`. Unknown tags become "no value", and such values are dropped from arrays and argument maps. The integer arms narrow a 64-bit value. The argument map is the insertion-ordered map that `toMap` builds.
- **The `kotlinp` printer** (`printers.dfy`, module `Printers`). This covers:
  - the ordered flag tables and `appendFlags`;
  - the text of types, type parameters and value parameters;
  - the declaration lines printed for functions, constructors, properties and type aliases;
  - annotation literals;
  - the printer objects for classes, packages, lambdas, multi-file classes and module files.

  Each visitor object is a Dafny class. A `StringBuilder` class (`text.dfy`, module `Text`) is appended in place, and a class printer shares it with the member printers it hands out. The lists and optional texts the callbacks fill are fields. Every `visitEnd` is proved against a function that says what the builder holds afterwards, given what it held before.
- **The API-usage inspection** (`api_inspection.dfy` and `api_visitor.dfy`, modules `ApiInspection` and `ApiVisitor`). The model covers:
  - the signature of a class, field or method;
  - the decision whether a member is forbidden;
  - the `@Override` rule, and the rules for references, name-value pairs and `new` expressions;
  - the set of forbidden references, which the `items` setter keeps in step with the list;
  - the guard of `registerError`.

  Program elements are a small `Member`/`PsiClass` datatype, and the results of resolution are explicit inputs. The problems holder is a class whose list of problems the visitor extends.

`wrappers.dfy` holds `Option` and `Result`. `metadata.dfy` holds the envelope, the name resolver and the exceptions, which are the external types the core is written against.

Naming used throughout:
- `Success(None)` stands for a `null` result.
- `Failure(e)` stands for a thrown `e`.
- `None` for an optional string stands for a Kotlin `null`.
- A set of flags, `Flags`, stands for the flag predicates that hold for an `Int` of flags.

## Model

| member | source | states |
|---|---|---|
| ClassFiles.ReadNullIffUnsupportedVersion | libraries/kotlinx-metadata/jvm/src/kotlinx/metadata/jvm/KotlinClassFile.kt:194-196 | `read` returns null, without throwing, exactly when the metadata version has fewer than two components or does not start with 1, 1 |
| ClassFiles.ReadIgnoresLaterVersionComponents | libraries/kotlinx-metadata/jvm/src/kotlinx/metadata/jvm/KotlinClassFile.kt:194-196 | two supported versions that differ only after the first two components give the same result |
| ClassFiles.ReadMissingData1 | libraries/kotlinx-metadata/jvm/src/kotlinx/metadata/jvm/KotlinClassFile.kt:198-231 | for the class, file-facade and multi-file-part kinds, an empty `data1` throws "No d1 in metadata", rethrown unwrapped |
| ClassFiles.ReadSyntheticClassKind | libraries/kotlinx-metadata/jvm/src/kotlinx/metadata/jvm/KotlinClassFile.kt:211-218 | the synthetic-class kind never throws for an empty `data1` and then gives SyntheticClass; a successful read gives Lambda exactly when `data1` is non-empty |
| ClassFiles.ReadMultiFileClassFacade | libraries/kotlinx-metadata/jvm/src/kotlinx/metadata/jvm/KotlinClassFile.kt:219-221 | the facade kind decodes nothing and always succeeds, and its `partClassNames` are `data1` |
| ClassFiles.ReadUnknownKind | libraries/kotlinx-metadata/jvm/src/kotlinx/metadata/jvm/KotlinClassFile.kt:226-228 | a kind outside the five known codes gives Unknown carrying the same envelope, without error |
| ClassFiles.ReadVariantMatchesKind | libraries/kotlinx-metadata/jvm/src/kotlinx/metadata/jvm/KotlinClassFile.kt:202-229 | a successful non-null read keeps the envelope, and the variant is decided by the kind alone, in both directions |
| ClassFiles.ReadDecodesClass | libraries/kotlinx-metadata/jvm/src/kotlinx/metadata/jvm/KotlinClassFile.kt:203-206 | a class record the codec decodes becomes a Class holding that record and that name resolver |
| ClassFiles.ReadDecodesPackage | libraries/kotlinx-metadata/jvm/src/kotlinx/metadata/jvm/KotlinClassFile.kt:207-225 | a decoded package record becomes a FileFacade or a MultiFileClassPart, as the kind says |
| ClassFiles.ReadDecodesFunction | libraries/kotlinx-metadata/jvm/src/kotlinx/metadata/jvm/KotlinClassFile.kt:211-214 | a function record decoded from a non-empty `data1` becomes a Lambda |
| ClassFiles.ReadWrapsCodecFailure | libraries/kotlinx-metadata/jvm/src/kotlinx/metadata/jvm/KotlinClassFile.kt:230-233 | a codec failure is rethrown as it is when it is an InconsistentKotlinMetadataException; any other failure is wrapped exactly once, with the read-failure message and the original as its cause |
| ClassFiles.ReadThrowsOnlyInconsistentMetadata | libraries/kotlinx-metadata/jvm/src/kotlinx/metadata/jvm/KotlinClassFile.kt:198-233 | whatever `read` throws is an InconsistentKotlinMetadataException |
| ClassFiles.ClassWriter.Write | libraries/kotlinx-metadata/jvm/src/kotlinx/metadata/jvm/KotlinClassFile.kt:36-47 | returns the Class built from the writer's record and string table: the encoded record as `data1`, the table's strings as `data2` |
| ClassFiles.FileFacadeWriter.Write | libraries/kotlinx-metadata/jvm/src/kotlinx/metadata/jvm/KotlinClassFile.kt:64-75 | returns the FileFacade built from the writer's record and string table |
| ClassFiles.LambdaWriter.VisitFunction | libraries/kotlinx-metadata/jvm/src/kotlinx/metadata/jvm/KotlinClassFile.kt:94 | installs the function record that `write` needs; the string table is unchanged |
| ClassFiles.LambdaWriter.Write | libraries/kotlinx-metadata/jvm/src/kotlinx/metadata/jvm/KotlinClassFile.kt:89-102 | fails with "LambdaVisitor.visitFunction has not been called" exactly when no function was visited; otherwise returns the Lambda built from the record |
| ClassFiles.SyntheticClassWriter.Write | libraries/kotlinx-metadata/jvm/src/kotlinx/metadata/jvm/KotlinClassFile.kt:110-119 | returns a SyntheticClass whose `data1` and `data2` are empty |
| ClassFiles.MultiFileClassFacadeWriter.Write | libraries/kotlinx-metadata/jvm/src/kotlinx/metadata/jvm/KotlinClassFile.kt:129-140 | returns a MultiFileClassFacade whose `data1` is the given part class names |
| ClassFiles.MultiFileClassPartWriter.Write | libraries/kotlinx-metadata/jvm/src/kotlinx/metadata/jvm/KotlinClassFile.kt:160-176 | returns a MultiFileClassPart whose `extraString` is the facade class name |
| ClassFiles.WritersStampEnvelope | libraries/kotlinx-metadata/jvm/src/kotlinx/metadata/jvm/KotlinClassFile.kt:36-176 | every writer stamps its own kind, the given versions and `extraInt`, and an empty `packageName`; only the multi-file part writer sets `extraString`, and `facadeClassName` gives it back |
| ClassFiles.ClassWriterRoundTrip | libraries/kotlinx-metadata/jvm/src/kotlinx/metadata/jvm/KotlinClassFile.kt:36-47 | reading the class writer's envelope at a 1.1 version gives back a Class with the same record, when the codec decodes its own non-empty encoding |
| ClassFiles.ClassWriterEmptyRecord | libraries/kotlinx-metadata/jvm/src/kotlinx/metadata/jvm/KotlinClassFile.kt:198-206 | a record that encodes to an empty `data1` cannot be read back: the read throws "No d1 in metadata" |
| ClassFiles.FileFacadeWriterRoundTrip | libraries/kotlinx-metadata/jvm/src/kotlinx/metadata/jvm/KotlinClassFile.kt:64-75 | the file-facade writer's output reads back as a FileFacade with the same record |
| ClassFiles.LambdaWriterRoundTrip | libraries/kotlinx-metadata/jvm/src/kotlinx/metadata/jvm/KotlinClassFile.kt:89-102 | the lambda writer's output reads back as a Lambda with the same record, or as a SyntheticClass when the record encodes to nothing |
| ClassFiles.SyntheticClassWriterRoundTrip | libraries/kotlinx-metadata/jvm/src/kotlinx/metadata/jvm/KotlinClassFile.kt:110-119 | the synthetic-class writer's output reads back as itself at any 1.1 version, whatever the codec |
| ClassFiles.MultiFileClassFacadeWriterRoundTrip | libraries/kotlinx-metadata/jvm/src/kotlinx/metadata/jvm/KotlinClassFile.kt:126-140 | the part class names given to the facade writer are the ones `partClassNames` reads back |
| ClassFiles.MultiFileClassPartWriterRoundTrip | libraries/kotlinx-metadata/jvm/src/kotlinx/metadata/jvm/KotlinClassFile.kt:149-176 | the multi-file part writer's output reads back with the same record and the facade name it was given |
| ReadUtils.ToByte | libraries/kotlinx-metadata/src/kotlinx/metadata/impl/readUtils.kt:26 | the result is the signed 8-bit value congruent to the input modulo 2^8 |
| ReadUtils.ToShort | libraries/kotlinx-metadata/src/kotlinx/metadata/impl/readUtils.kt:28 | the result is the signed 16-bit value congruent to the input modulo 2^16 |
| ReadUtils.ToInt | libraries/kotlinx-metadata/src/kotlinx/metadata/impl/readUtils.kt:29 | the result is the signed 32-bit value congruent to the input modulo 2^32 |
| ReadUtils.ToChar | libraries/kotlinx-metadata/src/kotlinx/metadata/impl/readUtils.kt:27 | the result is the unsigned 16-bit value congruent to the input modulo 2^16 |
| ReadUtils.Put | libraries/kotlinx-metadata/src/kotlinx/metadata/impl/readUtils.kt:21 | after putting `v` under `k`, `k` looks up `v` and every other key looks up what it did before |
| ReadUtils.PutKeepsKeysDistinct | libraries/kotlinx-metadata/src/kotlinx/metadata/impl/readUtils.kt:21 | putting into a map with distinct keys keeps the keys distinct |
| ReadUtils.LookupAbsent | libraries/kotlinx-metadata/src/kotlinx/metadata/impl/readUtils.kt:21 | a lookup finds nothing exactly when no entry has the key |
| ReadUtils.ToMapKeepsLastValue | libraries/kotlinx-metadata/src/kotlinx/metadata/impl/readUtils.kt:17-21 | the map `toMap` builds has each key once, and a key's value is that of the last pair with the key |
| ReadUtils.PutAllLookup | libraries/kotlinx-metadata/src/kotlinx/metadata/impl/readUtils.kt:21 | putting a list of pairs gives each key the value of its last pair, and leaves the other keys as they were |
| ReadUtils.ReadArguments | libraries/kotlinx-metadata/src/kotlinx/metadata/impl/readUtils.kt:17-21 | the kept arguments are never more than the wire arguments |
| ReadUtils.ReadAnnotationArgument | libraries/kotlinx-metadata/src/kotlinx/metadata/impl/readUtils.kt:24-40 | a value decodes to "no value" exactly when its type tag is unrecognised |
| ReadUtils.ReadArrayElements | libraries/kotlinx-metadata/src/kotlinx/metadata/impl/readUtils.kt:38 | an array never decodes to more elements than it has on the wire |
| ReadUtils.ReadArrayElementsAppend | libraries/kotlinx-metadata/src/kotlinx/metadata/impl/readUtils.kt:38 | decoding distributes over concatenation, so the kept elements stay in wire order |
| ReadUtils.ReadArgumentsAppend | libraries/kotlinx-metadata/src/kotlinx/metadata/impl/readUtils.kt:17-20 | decoding the arguments distributes over concatenation, so the kept pairs stay in wire order |
| ReadUtils.ReadArrayElementsMembers | libraries/kotlinx-metadata/src/kotlinx/metadata/impl/readUtils.kt:38 | a decoded element is the decoding of some wire element, and every wire element that decodes is kept |
| ReadUtils.ReadArrayElementsAllKnown | libraries/kotlinx-metadata/src/kotlinx/metadata/impl/readUtils.kt:38 | when every tag is known, nothing is dropped and element i decodes wire element i |
| ReadUtils.ArrayWithUnknownElement | libraries/kotlinx-metadata/src/kotlinx/metadata/impl/readUtils.kt:38-39 | an array of one known and one unknown element decodes to the known one alone |
| ReadUtils.ReadArgumentsMembers | libraries/kotlinx-metadata/src/kotlinx/metadata/impl/readUtils.kt:17-21 | the argument list keeps exactly the arguments whose value decodes, each keyed by `getString(nameId)` |
| ReadUtils.ReadAnnotationArguments | libraries/kotlinx-metadata/src/kotlinx/metadata/impl/readUtils.kt:14-22 | the class name comes from `getQualifiedClassName`; the map has distinct keys, and a repeated name keeps its later value |
| ReadUtils.LastValueAppend | libraries/kotlinx-metadata/src/kotlinx/metadata/impl/readUtils.kt:21 | the last pair with a key in two lists is the one in the second list when it has one, and otherwise the one in the first |
| ReadUtils.LaterArgumentWins | libraries/kotlinx-metadata/src/kotlinx/metadata/impl/readUtils.kt:14-22 | of two arguments with the same name, the map keeps the value of the one later on the wire |
| ReadUtils.ReadScalarArguments | libraries/kotlinx-metadata/src/kotlinx/metadata/impl/readUtils.kt:26-37 | BOOLEAN is `intValue != 0`; BYTE, SHORT, INT and CHAR are the 64-bit `intValue` narrowed by `toByte`, `toShort`, `toInt` and `toChar`, so an INT already in 32-bit range keeps its value; LONG keeps it; STRING and the enum entry resolve with `getString`; CLASS and the enum class resolve with `getQualifiedClassName`; ANNOTATION recurses with the same resolver |
| Printers.FlagsTextAppend | libraries/tools/kotlinp/src/org/jetbrains/kotlin/kotlinp/printers.kt:311-318 | the flag text of a table split in two is the text of the first part followed by that of the second, so entries are emitted in table order |
| Printers.FlagsTextSnoc | libraries/tools/kotlinp/src/org/jetbrains/kotlin/kotlinp/printers.kt:311-318 | one more table entry appends exactly that entry's contribution |
| Printers.FlagsTextEmptyEntry | libraries/tools/kotlinp/src/org/jetbrains/kotlin/kotlinp/printers.kt:311-318 | an entry with empty text adds nothing, whether or not its flag holds |
| Printers.FlagsTextEmpty | libraries/tools/kotlinp/src/org/jetbrains/kotlin/kotlinp/printers.kt:311-318 | the flag text is empty exactly when no entry with non-empty text holds, and otherwise it ends with a space |
| Printers.AppendEntry | libraries/tools/kotlinp/src/org/jetbrains/kotlin/kotlinp/printers.kt:312-317 | one iteration appends the entry's text and a space when its flag holds and the text is non-empty, and nothing otherwise |
| Printers.AppendFlags | libraries/tools/kotlinp/src/org/jetbrains/kotlin/kotlinp/printers.kt:311-318 | the loop appends the flag text of the whole table |
| Printers.RenderEntries | libraries/tools/kotlinp/src/org/jetbrains/kotlin/kotlinp/printers.kt:284-286 | as many texts as the annotation has arguments |
| Printers.RenderElements | libraries/tools/kotlinp/src/org/jetbrains/kotlin/kotlinp/printers.kt:307 | as many texts as the array has elements |
| Printers.RenderElementsContents | libraries/tools/kotlinp/src/org/jetbrains/kotlin/kotlinp/printers.kt:307 | element text k is the literal of element k |
| Printers.RenderEntriesContents | libraries/tools/kotlinp/src/org/jetbrains/kotlin/kotlinp/printers.kt:284-286 | entry text k is the name of argument k, ` = ` and the literal of its value |
| Printers.RenderElementsAsSeq | libraries/tools/kotlinp/src/org/jetbrains/kotlin/kotlinp/printers.kt:307 | the element texts are the elements' literals in order |
| Printers.NestedAnnotationAlwaysParenthesized | libraries/tools/kotlinp/src/org/jetbrains/kotlin/kotlinp/printers.kt:283-307 | a top-level annotation is its bare class name exactly when it has no arguments, while a nested one always gets parentheses, `()` when empty |
| Printers.ArgumentLiteralForms | libraries/tools/kotlinp/src/org/jetbrains/kotlin/kotlinp/printers.kt:289-309 | Byte ends in `.toByte()`, Short in `.toShort()`, Long in `L`; a char is one character in single quotes; a string is in double quotes; a class ends in `::class` |
| Printers.ArrayLiteralForms | libraries/tools/kotlinp/src/org/jetbrains/kotlin/kotlinp/printers.kt:307 | an array of any length is `[e1, ..., en]`: its elements' literals in order, separated by `, ` between brackets |
| Printers.AnnotationLiteralForms | libraries/tools/kotlinp/src/org/jetbrains/kotlin/kotlinp/printers.kt:283-287 | an annotation with arguments is `C(n1 = v1, ..., nm = vm)`, its entries in map order |
| Printers.ShortArrayLiterals | libraries/tools/kotlinp/src/org/jetbrains/kotlin/kotlinp/printers.kt:307 | an empty array is `[]`, and a two-element one `[a, b]` |
| Printers.IntegerLiteralsInjective | libraries/tools/kotlinp/src/org/jetbrains/kotlin/kotlinp/printers.kt:290-294 | two integer constants of the same kind with the same text are equal |
| Printers.OptionalPiecesPresence | libraries/tools/kotlinp/src/org/jetbrains/kotlin/kotlinp/printers.kt:223-231 | an optional piece is there exactly when its part is, between its lead and its trail; an angle list is there exactly when it has items, and then it is bracketed by `<` and `>` |
| Printers.AppendOptional | libraries/tools/kotlinp/src/org/jetbrains/kotlin/kotlinp/printers.kt:229-231 | appends the lead, the text and the trail for a present text, and nothing for a missing one |
| Printers.AppendWhen | libraries/tools/kotlinp/src/org/jetbrains/kotlin/kotlinp/printers.kt:226-228 | appends the text only when the condition holds |
| Printers.AppendAngleList | libraries/tools/kotlinp/src/org/jetbrains/kotlin/kotlinp/printers.kt:223-225 | appends `<a, b>` only for a non-empty list |
| Printers.AppendTypeParameters | libraries/tools/kotlinp/src/org/jetbrains/kotlin/kotlinp/printers.kt:43-46 | appends the type parameters in angle brackets and a trail only when there are some |
| Printers.AppendVariance | libraries/tools/kotlinp/src/org/jetbrains/kotlin/kotlinp/printers.kt:209-211 | appends the lower-case variance and a space, except for an invariant one |
| Printers.ArgumentTexts | libraries/tools/kotlinp/src/org/jetbrains/kotlin/kotlinp/printers.kt:206-218 | one text per type argument |
| Printers.ArgumentTextsAppend | libraries/tools/kotlinp/src/org/jetbrains/kotlin/kotlinp/printers.kt:206-218 | the argument texts of a concatenation are the concatenation of the texts, in order |
| Printers.TypeTextAfterClassifier | libraries/tools/kotlinp/src/org/jetbrains/kotlin/kotlinp/printers.kt:180-233 | a type's text starts with its flags and classifier; `<` follows exactly when it has arguments; otherwise `?` follows exactly when it is nullable; otherwise the text ends there exactly when there is no abbreviation |
| Printers.TypeEndForms | libraries/tools/kotlinp/src/org/jetbrains/kotlin/kotlinp/printers.kt:222-231 | after what the builder held, `visitEnd` puts `<` first exactly when there are arguments, otherwise `?` first exactly for a nullable type, otherwise nothing exactly without an abbreviation |
| Printers.ClassifierAndArgumentForms | libraries/tools/kotlinp/src/org/jetbrains/kotlin/kotlinp/printers.kt:191-218 | a class is its name, a type parameter `T#id`, an alias its name and `^`; arguments carry `in ` or `out ` unless invariant; a star projection is `*` |
| Printers.TypeParameterRefsInjective | libraries/tools/kotlinp/src/org/jetbrains/kotlin/kotlinp/printers.kt:195-197 | different type-parameter ids are rendered differently |
| Printers.TypePrinter.constructor | libraries/tools/kotlinp/src/org/jetbrains/kotlin/kotlinp/printers.kt:182-189 | a fresh builder holding the type's flag text, and no arguments or abbreviation |
| Printers.TypePrinter.VisitClass | libraries/tools/kotlinp/src/org/jetbrains/kotlin/kotlinp/printers.kt:191-193 | appends the class name |
| Printers.TypePrinter.VisitTypeParameter | libraries/tools/kotlinp/src/org/jetbrains/kotlin/kotlinp/printers.kt:195-197 | appends `T#id` |
| Printers.TypePrinter.VisitTypeAlias | libraries/tools/kotlinp/src/org/jetbrains/kotlin/kotlinp/printers.kt:199-201 | appends the alias name and `^` |
| Printers.TypePrinter.OnAbbreviatedType | libraries/tools/kotlinp/src/org/jetbrains/kotlin/kotlinp/printers.kt:203-204 | records the abbreviation's text; the arguments are unchanged |
| Printers.TypePrinter.OnArgument | libraries/tools/kotlinp/src/org/jetbrains/kotlin/kotlinp/printers.kt:206-214 | adds the argument's text, with its variance prefix, at the end of the arguments |
| Printers.TypePrinter.VisitStarProjection | libraries/tools/kotlinp/src/org/jetbrains/kotlin/kotlinp/printers.kt:216-218 | adds `*` at the end of the arguments |
| Printers.TypePrinter.VisitEnd | libraries/tools/kotlinp/src/org/jetbrains/kotlin/kotlinp/printers.kt:222-233 | appends the arguments in angle brackets only if there are some, then `?` only for a nullable type, then ` /* = X */` only with an abbreviation; the output is the builder's text |
| Printers.PrintType | libraries/tools/kotlinp/src/org/jetbrains/kotlin/kotlinp/printers.kt:180-234 | driving a type printer with the calls that describe a type outputs that type's text |
| Printers.PrintArguments | libraries/tools/kotlinp/src/org/jetbrains/kotlin/kotlinp/printers.kt:206-218 | after the argument calls, the printer holds the argument texts in order, each printed by a nested type printer |
| Printers.AppendAnnotationUses | libraries/tools/kotlinp/src/org/jetbrains/kotlin/kotlinp/printers.kt:246-248 | appends `@Annotation ` per JVM annotation, in order |
| Printers.PrintTypeParameter | libraries/tools/kotlinp/src/org/jetbrains/kotlin/kotlinp/printers.kt:236-255 | outputs the flags, the annotations, the variance and `T#id /* name */` |
| Printers.TypeParameterForms | libraries/tools/kotlinp/src/org/jetbrains/kotlin/kotlinp/printers.kt:243-253 | a type parameter's text ends with `T#id /* name */`, and it is exactly that with no flag text, no annotations and invariance |
| Printers.ValueParameterForms | libraries/tools/kotlinp/src/org/jetbrains/kotlin/kotlinp/printers.kt:268-280 | the text ends with ` /* = ... */` when a default value is declared; without a vararg or default it is the flags and `name: T` (`null` for a missing type); a vararg without a default is the flags and `vararg name: E /* T */`, and any vararg starts with `vararg ` after the flags |
| Printers.ValueParameterPrinter.constructor | libraries/tools/kotlinp/src/org/jetbrains/kotlin/kotlinp/printers.kt:257-260 | no type and no vararg element type yet |
| Printers.ValueParameterPrinter.OnType | libraries/tools/kotlinp/src/org/jetbrains/kotlin/kotlinp/printers.kt:262-263 | records the parameter type's text |
| Printers.ValueParameterPrinter.OnVarargElementType | libraries/tools/kotlinp/src/org/jetbrains/kotlin/kotlinp/printers.kt:265-266 | records the vararg element type's text |
| Printers.ValueParameterPrinter.VisitEnd | libraries/tools/kotlinp/src/org/jetbrains/kotlin/kotlinp/printers.kt:268-280 | outputs the flags, then the vararg or plain declaration, then the default-value marker when declared |
| Printers.ValueParameterPrinter.AppendDeclaration | libraries/tools/kotlinp/src/org/jetbrains/kotlin/kotlinp/printers.kt:271-275 | appends `vararg name: E /* T */` for a vararg, and `name: T` otherwise |
| Printers.FunctionForms | libraries/tools/kotlinp/src/org/jetbrains/kotlin/kotlinp/printers.kt:35-56 | with no signature, type parameters, receiver, return type or flag text, a function prints an empty line and then `  fun name(params)`; a receiver `R` puts `R.` right before the name |
| Printers.FunctionLineForms | libraries/tools/kotlinp/src/org/jetbrains/kotlin/kotlinp/printers.kt:35-56 | for all inputs: `<…> ` follows `fun ` with type parameters; with none, the receiver and the name do; `R.` comes right before the name with a receiver `R`, and the name directly otherwise; the line ends with `): T` and a line end with a return type `T`, and with `)` and a line end without |
| Printers.FunctionPrinter.constructor | libraries/tools/kotlinp/src/org/jetbrains/kotlin/kotlinp/printers.kt:12-17 | shares the given builder; no type parameters, parameters, receiver or return type yet |
| Printers.FunctionPrinter.OnReceiverParameterType | libraries/tools/kotlinp/src/org/jetbrains/kotlin/kotlinp/printers.kt:19-20 | records the receiver type; the other fields are unchanged |
| Printers.FunctionPrinter.OnTypeParameter | libraries/tools/kotlinp/src/org/jetbrains/kotlin/kotlinp/printers.kt:22-25 | adds a type parameter at the end |
| Printers.FunctionPrinter.OnValueParameter | libraries/tools/kotlinp/src/org/jetbrains/kotlin/kotlinp/printers.kt:27-28 | adds a value parameter at the end |
| Printers.FunctionPrinter.OnReturnType | libraries/tools/kotlinp/src/org/jetbrains/kotlin/kotlinp/printers.kt:30-31 | records the return type |
| Printers.FunctionPrinter.VisitEnd | libraries/tools/kotlinp/src/org/jetbrains/kotlin/kotlinp/printers.kt:35-56 | appends an empty line, the signature comment when there is one, then `  ` + flags + `fun `, `<…> ` only with type parameters, `R.` only with a receiver, the name, `(params)` always, `: ret` only with a return type, and a line end |
| Printers.ConstructorPrinter.constructor | libraries/tools/kotlinp/src/org/jetbrains/kotlin/kotlinp/printers.kt:358-360 | shares the class printer's builder; no parameters yet |
| Printers.ConstructorPrinter.OnValueParameter | libraries/tools/kotlinp/src/org/jetbrains/kotlin/kotlinp/printers.kt:362-363 | adds a value parameter at the end |
| Printers.ConstructorPrinter.VisitEnd | libraries/tools/kotlinp/src/org/jetbrains/kotlin/kotlinp/printers.kt:365-375 | appends an empty line, the signature comment when there is one, and `  ` + flags + `constructor(params)` |
| Printers.AfterPropertyTail | libraries/tools/kotlinp/src/org/jetbrains/kotlin/kotlinp/printers.kt:105-118 | what follows the keyword leaves the text before it in place as a prefix |
| Printers.PropertyDeclarationForms | libraries/tools/kotlinp/src/org/jetbrains/kotlin/kotlinp/printers.kt:102-118 | the keyword after the flags is `var ` exactly when the property is a `var`, and `val ` exactly when it is not; with a constant, the line ends with ` /* = ... */` |
| Printers.AccessorForms | libraries/tools/kotlinp/src/org/jetbrains/kotlin/kotlinp/printers.kt:119-128 | an accessor line is added exactly when the accessor exists, and then it is indented by four spaces and ends with `get` or `set` |
| Printers.AppendAccessor | libraries/tools/kotlinp/src/org/jetbrains/kotlin/kotlinp/printers.kt:119-128 | appends the accessor line, with the accessor's flags, only when the accessor exists |
| Printers.AppendFieldComment | libraries/tools/kotlinp/src/org/jetbrains/kotlin/kotlinp/printers.kt:86-92 | appends `  // name` (with `:type` only when there is a field type) only when there is a field name |
| Printers.AppendPropertyTail | libraries/tools/kotlinp/src/org/jetbrains/kotlin/kotlinp/printers.kt:105-118 | appends `<…> ` only with type parameters, `R.` only with a receiver, the name, `: T` only with a return type, the constant marker only with a constant, and a line end |
| Printers.PropertyPrinter.constructor | libraries/tools/kotlinp/src/org/jetbrains/kotlin/kotlinp/printers.kt:59-68 | shares the given builder; no type parameters, receiver or return type yet |
| Printers.PropertyPrinter.OnReceiverParameterType | libraries/tools/kotlinp/src/org/jetbrains/kotlin/kotlinp/printers.kt:71-72 | records the receiver type |
| Printers.PropertyPrinter.OnTypeParameter | libraries/tools/kotlinp/src/org/jetbrains/kotlin/kotlinp/printers.kt:74-77 | adds a type parameter at the end |
| Printers.PropertyPrinter.OnReturnType | libraries/tools/kotlinp/src/org/jetbrains/kotlin/kotlinp/printers.kt:79-80 | records the return type |
| Printers.PropertyPrinter.VisitEnd | libraries/tools/kotlinp/src/org/jetbrains/kotlin/kotlinp/printers.kt:84-130 | appends an empty line, the JVM comments, the declaration line, and the getter and setter lines only when the property has them |
| Printers.PropertyPrinter.AppendComments | libraries/tools/kotlinp/src/org/jetbrains/kotlin/kotlinp/printers.kt:86-101 | appends the field, getter, setter and synthetic-method comments, each only when present |
| Printers.PropertyPrinter.AppendDeclaration | libraries/tools/kotlinp/src/org/jetbrains/kotlin/kotlinp/printers.kt:102-118 | appends `  `, the flags, `var ` or `val `, and the rest of the declaration line |
| Printers.AppendAnnotationLines | libraries/tools/kotlinp/src/org/jetbrains/kotlin/kotlinp/printers.kt:159-163 | appends a line `  @Annotation` per annotation, in order |
| Printers.TypeAliasPrinter.constructor | libraries/tools/kotlinp/src/org/jetbrains/kotlin/kotlinp/printers.kt:133-138 | shares the given builder; no annotations, type parameters or types yet |
| Printers.TypeAliasPrinter.OnTypeParameter | libraries/tools/kotlinp/src/org/jetbrains/kotlin/kotlinp/printers.kt:140-143 | adds a type parameter at the end |
| Printers.TypeAliasPrinter.OnUnderlyingType | libraries/tools/kotlinp/src/org/jetbrains/kotlin/kotlinp/printers.kt:145-146 | records the underlying type |
| Printers.TypeAliasPrinter.OnExpandedType | libraries/tools/kotlinp/src/org/jetbrains/kotlin/kotlinp/printers.kt:148-149 | records the expanded type |
| Printers.TypeAliasPrinter.VisitAnnotation | libraries/tools/kotlinp/src/org/jetbrains/kotlin/kotlinp/printers.kt:151-153 | adds the annotation at the end |
| Printers.TypeAliasPrinter.VisitEnd | libraries/tools/kotlinp/src/org/jetbrains/kotlin/kotlinp/printers.kt:157-177 | appends an empty line, one line per annotation, then `  ` + visibility flags + `typealias name`, `<…>` only with type parameters, ` = U` only with an underlying type, ` /* = E */` only with an expanded type |
| Printers.AnnotationLineTexts | libraries/tools/kotlinp/src/org/jetbrains/kotlin/kotlinp/printers.kt:159-163 | one `  @Annotation` line per annotation, in order |
| Printers.AnnotationLinesListing | libraries/tools/kotlinp/src/org/jetbrains/kotlin/kotlinp/printers.kt:159-163 | the annotation loop leaves the earlier text followed by the annotation lines in order |
| Printers.TypeAliasForms | libraries/tools/kotlinp/src/org/jetbrains/kotlin/kotlinp/printers.kt:157-177 | an empty line and the annotation lines come first; then `  typealias name` after the visibility flags; the angle list follows the name with no space when there are type parameters; the line ends with ` /* = E */` with an expanded type, else with ` = U` with an underlying type, else right after the name and the type parameters |
| Printers.ListingLines | libraries/tools/kotlinp/src/org/jetbrains/kotlin/kotlinp/printers.kt:480-482 | one line per item, in order, each the indent, the item and a line end |
| Printers.AfterLinesListing | libraries/tools/kotlinp/src/org/jetbrains/kotlin/kotlinp/printers.kt:496-501 | the text a listing loop leaves is the earlier text followed by the listing's lines in item order |
| Printers.AppendLines | libraries/tools/kotlinp/src/org/jetbrains/kotlin/kotlinp/printers.kt:496-501 | the listing loop appends one indented line per item |
| Printers.AppendSupertypes | libraries/tools/kotlinp/src/org/jetbrains/kotlin/kotlinp/printers.kt:340-343 | appends ` : ` and the supertypes only when there are some |
| Printers.ClassForms | libraries/tools/kotlinp/src/org/jetbrains/kotlin/kotlinp/printers.kt:336-347 | without type parameters or supertypes, ` {` follows the header directly; with supertypes, they follow ` : `; the members sit between the opening line and `}` |
| Printers.ClassPrinter.constructor | libraries/tools/kotlinp/src/org/jetbrains/kotlin/kotlinp/printers.kt:325-329 | two fresh, empty builders (members and result), distinct as `Valid` requires, and empty lists |
| Printers.ClassPrinter.Visit | libraries/tools/kotlinp/src/org/jetbrains/kotlin/kotlinp/printers.kt:331-334 | appends the class flags and the name to the result |
| Printers.ClassPrinter.VisitEnd | libraries/tools/kotlinp/src/org/jetbrains/kotlin/kotlinp/printers.kt:336-347 | appends the type parameters, the supertypes, ` {`, the members' text and `}` to the result |
| Printers.ClassPrinter.OnTypeParameter | libraries/tools/kotlinp/src/org/jetbrains/kotlin/kotlinp/printers.kt:349-352 | adds a type parameter at the end |
| Printers.ClassPrinter.OnSupertype | libraries/tools/kotlinp/src/org/jetbrains/kotlin/kotlinp/printers.kt:354-356 | adds a supertype at the end |
| Printers.ClassPrinter.VisitConstructor | libraries/tools/kotlinp/src/org/jetbrains/kotlin/kotlinp/printers.kt:358-376 | a fresh constructor printer writing to the class's member builder |
| Printers.ClassPrinter.VisitFunction | libraries/tools/kotlinp/src/org/jetbrains/kotlin/kotlinp/printers.kt:378-379 | a fresh function printer writing to the class's member builder |
| Printers.ClassPrinter.VisitProperty | libraries/tools/kotlinp/src/org/jetbrains/kotlin/kotlinp/printers.kt:381-388 | a fresh property printer writing to the class's member builder |
| Printers.ClassPrinter.VisitTypeAlias | libraries/tools/kotlinp/src/org/jetbrains/kotlin/kotlinp/printers.kt:390-391 | a fresh type-alias printer writing to the class's member builder |
| Printers.ClassPrinter.VisitCompanionObject | libraries/tools/kotlinp/src/org/jetbrains/kotlin/kotlinp/printers.kt:393-396 | appends an empty line and `  // companion object: name` |
| Printers.ClassPrinter.VisitNestedClass | libraries/tools/kotlinp/src/org/jetbrains/kotlin/kotlinp/printers.kt:398-401 | appends an empty line and `  // nested class: name` |
| Printers.ClassPrinter.VisitEnumEntry | libraries/tools/kotlinp/src/org/jetbrains/kotlin/kotlinp/printers.kt:403-406 | appends an empty line and `  name,` |
| Printers.ClassPrinter.VisitSealedSubclass | libraries/tools/kotlinp/src/org/jetbrains/kotlin/kotlinp/printers.kt:408-411 | appends an empty line and `  // sealed subclass: name` |
| Printers.PackagePrinter.constructor | libraries/tools/kotlinp/src/org/jetbrains/kotlin/kotlinp/printers.kt:420-422 | a fresh builder holding the line `package {` |
| Printers.PackagePrinter.VisitEnd | libraries/tools/kotlinp/src/org/jetbrains/kotlin/kotlinp/printers.kt:424-426 | appends the closing `}` line |
| Printers.PackagePrinter.VisitFunction | libraries/tools/kotlinp/src/org/jetbrains/kotlin/kotlinp/printers.kt:428-429 | a fresh function printer writing to the package's builder |
| Printers.PackagePrinter.VisitProperty | libraries/tools/kotlinp/src/org/jetbrains/kotlin/kotlinp/printers.kt:431-438 | a fresh property printer writing to the package's builder |
| Printers.PackagePrinter.VisitTypeAlias | libraries/tools/kotlinp/src/org/jetbrains/kotlin/kotlinp/printers.kt:440-441 | a fresh type-alias printer writing to the package's builder |
| Printers.PackagePrinter.PrintFacadeClassName | libraries/tools/kotlinp/src/org/jetbrains/kotlin/kotlinp/printers.kt:469-475 | appends the part's `  // facade: name` line |
| Printers.LambdaPrinter.constructor | libraries/tools/kotlinp/src/org/jetbrains/kotlin/kotlinp/printers.kt:452-454 | a fresh builder holding the line `lambda {` |
| Printers.LambdaPrinter.VisitFunction | libraries/tools/kotlinp/src/org/jetbrains/kotlin/kotlinp/printers.kt:456-457 | a fresh function printer writing to the lambda's builder |
| Printers.LambdaPrinter.VisitEnd | libraries/tools/kotlinp/src/org/jetbrains/kotlin/kotlinp/printers.kt:459-461 | appends the closing `}` line |
| Printers.PrintMultiFileClassFacade | libraries/tools/kotlinp/src/org/jetbrains/kotlin/kotlinp/printers.kt:477-486 | outputs the `multi-file class {` block for the facade's part class names |
| Printers.MultiFileClassFacadeForms | libraries/tools/kotlinp/src/org/jetbrains/kotlin/kotlinp/printers.kt:479-485 | the block holds one `  // part` line per part class, in order, between the opening and closing lines |
| Printers.PresentableName | libraries/tools/kotlinp/src/org/jetbrains/kotlin/kotlinp/printers.kt:494 | the root package is shown as `<root>`, and any other package as its name |
| Printers.PartEntries | libraries/tools/kotlinp/src/org/jetbrains/kotlin/kotlinp/printers.kt:499-501 | one `part (facade)` entry per multi-file class part, in order |
| Printers.PackagePartsForms | libraries/tools/kotlinp/src/org/jetbrains/kotlin/kotlinp/printers.kt:493-503 | a package block lists its file facades first and its multi-file class parts second, one indented line each, between `  package name {` and `  }` |
| Printers.ModuleFilePrinter.constructor | libraries/tools/kotlinp/src/org/jetbrains/kotlin/kotlinp/printers.kt:489-491 | a fresh builder holding the line `module {` |
| Printers.ModuleFilePrinter.VisitPackageParts | libraries/tools/kotlinp/src/org/jetbrains/kotlin/kotlinp/printers.kt:493-503 | appends the package block: opening line, facade lines, part lines, closing line |
| Printers.ModuleFilePrinter.VisitEnd | libraries/tools/kotlinp/src/org/jetbrains/kotlin/kotlinp/printers.kt:509-511 | appends the closing `}` line |
| ApiInspection.ErrorProblems | idea/idea-jvm/src/org/jetbrains/kotlin/idea/inspections/api/HighlightAPIUsageInspection.kt:43-47 | a problem is registered exactly when the element is present and in the project, and then it is the one "Deprecated API" problem for that element |
| ApiInspection.RegisterError | idea/idea-jvm/src/org/jetbrains/kotlin/idea/inspections/api/HighlightAPIUsageInspection.kt:43-47 | adds that problem to the holder, and nothing otherwise |
| ApiInspection.ApiOf | idea/idea-jvm/src/org/jetbrains/kotlin/idea/inspections/api/HighlightAPIUsageInspection.kt:24-30 | an `Api` made from a reference alone keeps that reference and has since, reason, level and replaceReference all null; the reference parameter defaults to `""` |
| ApiInspection.ApiDefaults | idea/idea-jvm/src/org/jetbrains/kotlin/idea/inspections/api/HighlightAPIUsageInspection.kt:24-30 | `Api()` with no arguments has the empty reference and every other field null |
| ApiInspection.ReferencesMembership | idea/idea-jvm/src/org/jetbrains/kotlin/idea/inspections/api/HighlightAPIUsageInspection.kt:18 | the references collected from a list are exactly the references of its items |
| ApiInspection.HighlightApiUsageInspection.constructor | idea/idea-jvm/src/org/jetbrains/kotlin/idea/inspections/api/HighlightAPIUsageInspection.kt:13-22 | initially the items are the one `java.lang.String#isEmpty()` API, the package pattern is `compat`, and the set is empty, so the set is out of step with the items |
| ApiInspection.HighlightApiUsageInspection.SetItems | idea/idea-jvm/src/org/jetbrains/kotlin/idea/inspections/api/HighlightAPIUsageInspection.kt:14-19 | after the assignment, the set holds exactly the new items' references, with no earlier entries, and a signature is highlighted exactly when some new item has it as its reference |
| ApiInspection.InitialInspection | idea/idea-jvm/src/org/jetbrains/kotlin/idea/inspections/api/HighlightAPIUsageInspection.kt:13-36 | a new inspection does not highlight its own initial item's signature until its items are assigned, and then it does |
| ApiVisitor.ParameterEntries | idea/idea-jvm/src/org/jetbrains/kotlin/idea/inspections/api/JavaHighlightApiVisitor.kt:139-142 | one `type;` entry per parameter type, in order |
| ApiVisitor.AfterParameterTypesEntries | idea/idea-jvm/src/org/jetbrains/kotlin/idea/inspections/api/JavaHighlightApiVisitor.kt:139-142 | the parameter loop appends each parameter type followed by `;`, in order |
| ApiVisitor.SignatureForms | idea/idea-jvm/src/org/jetbrains/kotlin/idea/inspections/api/JavaHighlightApiVisitor.kt:122-147 | a class's signature is its qualified name; a field is `C#name` and a method `C#name(T1;T2;…)` for the signature `C` of the containing class, and neither has one without it; no other member has a signature |
| ApiVisitor.ParameterlessMethodSignature | idea/idea-jvm/src/org/jetbrains/kotlin/idea/inspections/api/JavaHighlightApiVisitor.kt:130-144 | a method without parameters has the signature `C#m()` |
| ApiVisitor.GetSignature | idea/idea-jvm/src/org/jetbrains/kotlin/idea/inspections/api/JavaHighlightApiVisitor.kt:122-147 | the buffer-building method returns the member's signature |
| ApiVisitor.ForbiddenIff | idea/idea-jvm/src/org/jetbrains/kotlin/idea/inspections/api/JavaHighlightApiVisitor.kt:110-119 | the definition spelled out guard by guard: each of the three guards on its own (an anonymous class, a member of one, a class whose parent is neither a class nor a file) ensures a member is not forbidden, whatever is listed; past the guards, a member is forbidden exactly when it has a listed signature |
| ApiVisitor.ForbiddenMonotone | idea/idea-jvm/src/org/jetbrains/kotlin/idea/inspections/api/JavaHighlightApiVisitor.kt:110-119 | listing more references forbids at least the same members, and listing none forbids nothing |
| ApiVisitor.ForbiddenByItems | idea/idea-jvm/src/org/jetbrains/kotlin/idea/inspections/api/JavaHighlightApiVisitor.kt:116-118 | against the set the `items` setter builds, a member is forbidden exactly when no guard rules it out and some item's reference is its signature |
| ApiVisitor.OverrideNeedsAllSuperMethods | idea/idea-jvm/src/org/jetbrains/kotlin/idea/inspections/api/JavaHighlightApiVisitor.kt:93-105 | a single super method that is not compiled or not forbidden keeps `@Override` unreported, and so does having no super methods |
| ApiVisitor.JavaHighlightApiVisitor.constructor | idea/idea-jvm/src/org/jetbrains/kotlin/idea/inspections/api/JavaHighlightApiVisitor.kt:18-21 | the visitor reports to the given holder against the given inspection |
| ApiVisitor.JavaHighlightApiVisitor.VisitReferenceElement | idea/idea-jvm/src/org/jetbrains/kotlin/idea/inspections/api/JavaHighlightApiVisitor.kt:49-73 | reports a reference exactly when it resolves to a compiled, forbidden member and lies in a module, whatever the qualifier or enclosing class, because `isIgnored` is always false |
| ApiVisitor.JavaHighlightApiVisitor.VisitNameValuePair | idea/idea-jvm/src/org/jetbrains/kotlin/idea/inspections/api/JavaHighlightApiVisitor.kt:35-47 | reports a pair only when it has a reference that resolves to a forbidden compiled annotation method and lies in a module; the problem goes to its name identifier, or to the pair without one |
| ApiVisitor.JavaHighlightApiVisitor.VisitNewExpression | idea/idea-jvm/src/org/jetbrains/kotlin/idea/inspections/api/JavaHighlightApiVisitor.kt:75-85 | reports the class reference of a `new` expression in a module whose constructor is compiled and forbidden |
| ApiVisitor.JavaHighlightApiVisitor.VisitMethod | idea/idea-jvm/src/org/jetbrains/kotlin/idea/inspections/api/JavaHighlightApiVisitor.kt:87-108 | reports the `@Override` annotation's name reference only for a non-constructor with the annotation in a module that has at least one super method, every one of them compiled and forbidden |

## Left out

- The protobuf and bit-encoding codec (`JvmProtoBufUtil.read*DataFrom`, `BitEncoding.encodeBytes`, `JvmStringTable`, `JvmNameResolver`) is not modelled. It is a parameter: a `Codec` of function fields whose readers may fail, with abstract record types.
- The visitor drivers are not modelled: `accept` on each variant and `proto.accept`, through which a `print` call feeds a printer. So `print` is modelled as the printer's callbacks plus the text its builder holds at the end. The model also leaves out `ReadContext`, `TypeTable` and `VersionRequirementTable`.
- `ClassWriter`, `PackageWriter` and `LambdaWriter`, with their `t` and `c`, are not part of this model. A writer holds the record its callbacks would have built, and the string table.
- The default values of `KotlinMetadata.COMPATIBLE_*_VERSION`, and of `extraInt`, do not appear in the files modelled. The writers take them as explicit parameters. The kind constants are the five distinct values 1 to 5, and the proofs use nothing beyond their distinctness.
- The bit layout of the `Flags.*` predicates is not modelled. Flags are the set of predicates that hold, so a flag table lists which predicate each entry tests.
- The flag tables are `mapOf(...)` maps joined with `+`. They are modelled as ordered lists joined by concatenation. That matches the source only because no table repeats a key. This can be seen from the tables, but it is not proved.
- Float and Double annotation values are kept opaque, and only the text their `toString()` gives is used. The `toString()` of an enum value is taken to be `EnumClass.ENTRY`.
- A `char` argument that is a lone UTF-16 surrogate has no Dafny `char`. `CharText` shows it as U+FFFD instead of the unpaired code unit.
- The line separator of `appendln` is the constant `"\n"`.
- `ModuleFilePrinter.visitAnnotation` prints nothing and is not modelled. The same goes for `visitDocComment` and `visitClass` of the API visitor, which stop the traversal.
- The traversal the `super.visit*` calls make over child elements is not modelled. Every visitor method models what the method does after that traversal.
- `HighlightAPIUsageInspection.buildVisitor` is the visitor's constructor.
- PSI resolution, `ModuleUtilCore.findModuleForPsiElement`, `PsiUtil.resolveClassInType`, `PsiTreeUtil.getParentOfType` and `element.manager.isInProject` are not modelled. They are inputs: resolution results, "has a module" booleans, the qualifier's class, and an element's `inProject`.
- ApiInspection.HighlightApiUsageInspection.SetItems: the `items` list and its `Api` objects are treated as values. The source's setter keeps the caller's own mutable list, and `Api.reference` is a `var`. Changing that list or an `Api` in place bypasses the setter and leaves `forbiddenApiReferences` out of step. The model does not capture this. It has no such aliasing, so `InSync` fails only in the state the initializer leaves before the first set.
- ApiVisitor.JavaHighlightApiVisitor.VisitReferenceElement: takes a present reference. The source's `reference!!` throws for a null one, and that case is not modelled.
- ApiVisitor.JavaHighlightApiVisitor.VisitNewExpression: a resolved constructor is treated like any resolved element. It is checked only when it is a member, which a constructor always is.
- Printers.PrintType: drives the printer in one fixed call order: classifier, then arguments, then abbreviation. The source's visitor may interleave these callbacks. The `TypePrinter` methods on their own allow any order.
- The `// TODO` parts of the printer (raw types, type annotations, upper bounds, version requirements, setter parameters) print nothing in the source, so there is nothing to model.
