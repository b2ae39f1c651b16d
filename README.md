# Qualified names of protobuf descriptors

This project models the qualified-name engine of a protoc plugin that generates
Spring WebFlux wrappers for protobuf messages. Every message, enum or field
descriptor is built from the processing context of its `.proto` file. At
construction the descriptor does three things:

- it copies the Java package, the protobuf package, the outer (wrapper) class
  and the registry;
- it reports its name to the outer class;
- it takes its own copy of the context's live stack of enclosing message names.

Five name forms are then derived from those fixed fields:

- the unqualified name;
- the dotted path inside the outer class;
- the qualified name of the class this plugin emits;
- the qualified name of the class the protobuf compiler emits, which depends
  on the file's multiple-files mode;
- the protobuf-qualified type name.

Layout:

- `Strings.dfy`, module `Strings`: `Join` stands in for the `join` of Apache
  Commons Lang's `StringUtils`. It comes with its inverse `Split` and lemmas
  relating the two: round trips both ways, appending a part, and the absence
  of stray separators.
- `Context.dfy`, module `Context`: stubs for the collaborators.
  - `Registry`: held only by reference.
  - `OuterClass`: the two wrapper class names and the multiple-files flag, as
    constants, plus a ghost record of the names reported to it.
  - `FileDescriptorProcessingContext`: packages, outer class, registry, and the
    stack `outers` as a `seq<string>` that `PushOuter`/`PopOuter` reassign.
- `Descriptors.dfy`, module `Descriptors`: the class `AbstractDescriptor`.
  - Its Java `final` fields are `const` fields, so `getName`, `getJavaPkgName`
    and `getProtoPkgName` are the fields `name`, `javaPkgName` and
    `protoPkgName` themselves.
  - The other getters are functions with the source's bodies.
  - Lemmas tie each name form to an independent description: a `Join` over
    all its components, and what `Split` on `.` gives back.
  - Two methods run the constructor in traversal order: `VisitNested` for one
    push/construct/pop step, and `ExampleFile` for a whole file.

Empty packages. Nothing in the source guards against an empty package: in
Java's default package the qualified and original names start with `.`, and an
empty protobuf package gives a protobuf name starting with `.`
(`DefaultPackageLeadingSeparator`). The model keeps this, and the
`WellSeparated` lemmas require non-empty packages.

Snapshot independence. The source copies the live list (`new ArrayList<>(...)`)
because the context's list keeps changing during the traversal. In the model,
`outerMessages` is a `seq` value taken from `context.outers`, and `PushOuter` and
`PopOuter` change only the context. `VisitNested` and `ExampleFile` show the two
facts: a descriptor built before a push, or one built before a pop, keeps the
stack as it stood when it was built, and so keeps all its names.

## Model

| member | source | states |
|---|---|---|
| `Descriptors.AbstractDescriptor.constructor` | src/main/java/io/disc99/protoc/gen/spring/generator/AbstractDescriptor.java:42-59 | `name`, both packages, the outer class and the registry equal the context's values; `outerMessages` equals the context's stack at construction and the stack is left as it was; the outer class's record of reported names grows by exactly `[name]` |
| `Context.OuterClass.constructor` | src/main/java/io/disc99/protoc/gen/spring/generator/AbstractDescriptor.java:31 | the stub outer class a descriptor refers to: its plugin and protobuf wrapper class names and its multiple-files flag are the given values, fixed for the file, and nothing has been reported to it yet |
| `Context.FileDescriptorProcessingContext.constructor` | src/main/java/io/disc99/protoc/gen/spring/generator/AbstractDescriptor.java:44-49 | the stub context the constructor reads: both packages, the outer class and the registry are the given values, and the stack of enclosing names starts empty |
| `Context.OuterClass.OnNewDescriptor` | src/main/java/io/disc99/protoc/gen/spring/generator/AbstractDescriptor.java:51-54 | reporting a name appends exactly that name to the outer class's record |
| `Context.FileDescriptorProcessingContext.PushOuter` | src/main/java/io/disc99/protoc/gen/spring/generator/AbstractDescriptor.java:56-58 | entering a message appends its name to the live stack |
| `Context.FileDescriptorProcessingContext.PopOuter` | src/main/java/io/disc99/protoc/gen/spring/generator/AbstractDescriptor.java:56-58 | leaving a message drops the innermost name; on an empty stack it reports underflow and changes nothing |
| `Descriptors.AbstractDescriptor.NameWithinOuterClass` | src/main/java/io/disc99/protoc/gen/spring/generator/AbstractDescriptor.java:92-97 | the body is the source's expression: the name alone when there are no enclosing names, otherwise their join on `.`, then `.`, then the name; its contract is carried by `NameWithinOuterClassIsJoin`, `NameWithinOuterClassSegments` and `NameWithinOuterClassWellSeparated` |
| `Descriptors.AbstractDescriptor.QualifiedName` | src/main/java/io/disc99/protoc/gen/spring/generator/AbstractDescriptor.java:107-108 | the body is the source's concatenation of the Java package, the plugin wrapper class and the name within the outer class; its contract is carried by `QualifiedNameIsJoin`, `QualifiedNameSegments` and `QualifiedNameWellSeparated` |
| `Descriptors.AbstractDescriptor.QualifiedOriginalName` | src/main/java/io/disc99/protoc/gen/spring/generator/AbstractDescriptor.java:129-136 | the body is the source's two-branch expression on the multiple-files flag; its contract is carried by `QualifiedOriginalNameIsJoin`, `QualifiedOriginalNameSegments`, `OriginalNameNestsInWrapperWhenSingleFile`, `OriginalNameOmitsWrapperInMultipleFiles` and `QualifiedOriginalNameWellSeparated` |
| `Descriptors.AbstractDescriptor.QualifiedProtoName` | src/main/java/io/disc99/protoc/gen/spring/generator/AbstractDescriptor.java:146-147 | the body is the source's concatenation of the protobuf package and the name within the outer class; its contract is carried by `QualifiedProtoNameIsJoin`, `QualifiedProtoNameSegments` and `QualifiedProtoNameWellSeparated` |
| `Descriptors.NameWithinOuterClassIsJoin` | src/main/java/io/disc99/protoc/gen/spring/generator/AbstractDescriptor.java:92-97 | the name within the outer class is the enclosing names followed by the name, joined on `.`; for a top-level type it is exactly the name; it always ends with the name |
| `Descriptors.NameWithinOuterClassNests` | src/main/java/io/disc99/protoc/gen/spring/generator/AbstractDescriptor.java:82-87 | a type nested directly in `d` has `d`'s path, then `.`, then its own name (`Msg` gives `Msg.Msg2`) |
| `Descriptors.NameWithinOuterClassSegments` | src/main/java/io/disc99/protoc/gen/spring/generator/AbstractDescriptor.java:92-97 | round trip: with no `.` in the names, splitting the path on `.` gives back `outerMessages + [name]` |
| `Descriptors.NameWithinOuterClassWellSeparated` | src/main/java/io/disc99/protoc/gen/spring/generator/AbstractDescriptor.java:92-97 | with non-empty, well-formed names, the path has no leading, trailing or doubled `.` at any depth, including zero |
| `Descriptors.QualifiedNameIsJoin` | src/main/java/io/disc99/protoc/gen/spring/generator/AbstractDescriptor.java:107-108 | the qualified name is the Java package, the plugin wrapper class, the enclosing names and the name, joined on `.` |
| `Descriptors.QualifiedNameSegments` | src/main/java/io/disc99/protoc/gen/spring/generator/AbstractDescriptor.java:107-108 | splitting the qualified name on `.` gives the package's segments, then the plugin class, the enclosing names and the name |
| `Descriptors.QualifiedNameWellSeparated` | src/main/java/io/disc99/protoc/gen/spring/generator/AbstractDescriptor.java:107-108 | with well-formed components, exactly one `.` between neighbours and none at either end, whatever the nesting depth |
| `Descriptors.QualifiedOriginalNameWellSeparated` | src/main/java/io/disc99/protoc/gen/spring/generator/AbstractDescriptor.java:132-136 | with well-formed components, no stray `.` in the original name in either mode |
| `Descriptors.QualifiedProtoNameWellSeparated` | src/main/java/io/disc99/protoc/gen/spring/generator/AbstractDescriptor.java:146-147 | with well-formed components, no stray `.` in the protobuf name |
| `Descriptors.DefaultPackageLeadingSeparator` | src/main/java/io/disc99/protoc/gen/spring/generator/AbstractDescriptor.java:108 | with an empty Java package the qualified and original names start with `.`; with an empty protobuf package the protobuf name does |
| `Descriptors.QualifiedOriginalNameIsJoin` | src/main/java/io/disc99/protoc/gen/spring/generator/AbstractDescriptor.java:129-136 | in multiple-files mode: the Java package, the enclosing names and the name joined on `.`; otherwise the protobuf compiler's wrapper class comes between the package and the path |
| `Descriptors.QualifiedOriginalNameSegments` | src/main/java/io/disc99/protoc/gen/spring/generator/AbstractDescriptor.java:129-136 | the segments of the original name in each of the two modes |
| `Descriptors.OriginalNameNestsInWrapperWhenSingleFile` | src/main/java/io/disc99/protoc/gen/spring/generator/AbstractDescriptor.java:134-135 | with multiple-files mode off, the protobuf compiler's wrapper class is a segment of the original name, for every descriptor whose wrapper class name has no `.` |
| `Descriptors.OriginalNameOmitsWrapperInMultipleFiles` | src/main/java/io/disc99/protoc/gen/spring/generator/AbstractDescriptor.java:130-133 | in multiple-files mode, with dot-free enclosing names and name, the wrapper class is not a segment of the original name unless it already is a package segment, an enclosing name or the name |
| `Descriptors.QualifiedProtoNameIsJoin` | src/main/java/io/disc99/protoc/gen/spring/generator/AbstractDescriptor.java:146-147 | the protobuf name is the protobuf package, the enclosing names and the name joined on `.`; no Java package or class name takes part |
| `Descriptors.QualifiedProtoNameSegments` | src/main/java/io/disc99/protoc/gen/spring/generator/AbstractDescriptor.java:146-147 | splitting the protobuf name on `.` gives the protobuf package's segments, the enclosing names and the name |
| `Descriptors.VisitNested` | src/main/java/io/disc99/protoc/gen/spring/generator/AbstractDescriptor.java:56-58 | a descriptor built before a push keeps the old stack; one built inside keeps the stack with the enclosing name; after the pop both are unchanged, the nested path extends the outer one by `.` and the name, and the outer class recorded both names in order |
| `Descriptors.ExampleFile` | src/main/java/io/disc99/protoc/gen/spring/generator/AbstractDescriptor.java:62-67 | building `Msg { Msg2 { Msg3 } }` in traversal order gives snapshots `[]`, `[Msg]` and `[Msg, Msg2]`, all in one outer class that recorded the three names in order |
| `Descriptors.ExampleTopLevelNames` | src/main/java/io/disc99/protoc/gen/spring/generator/AbstractDescriptor.java:79-80 | the top-level `Msg` is `Msg` within the outer class and `com.example.ExampleOuter.Msg` qualified |
| `Descriptors.ExampleNestedQualifiedName` | src/main/java/io/disc99/protoc/gen/spring/generator/AbstractDescriptor.java:107-108 | `Msg2` is `com.example.ExampleOuter.Msg.Msg2` |
| `Descriptors.ExampleNestedOriginalName` | src/main/java/io/disc99/protoc/gen/spring/generator/AbstractDescriptor.java:134-135 | with multiple-files mode off, the original `Msg2` is `com.example.ExampleProto.Msg.Msg2` |
| `Descriptors.ExampleNestedProtoName` | src/main/java/io/disc99/protoc/gen/spring/generator/AbstractDescriptor.java:146-147 | the protobuf name of `Msg2` is `pkg.v1.Msg.Msg2` |
| `Descriptors.ExampleDoublyNestedName` | src/main/java/io/disc99/protoc/gen/spring/generator/AbstractDescriptor.java:83-86 | `Msg3` nested in `Msg2` nested in `Msg` is `Msg.Msg2.Msg3` within the outer class |
| `Strings.Join` | src/main/java/io/disc99/protoc/gen/spring/generator/AbstractDescriptor.java:96 | the function standing in for `StringUtils.join`: the parts in order with the separator between neighbours; its contract is carried by `JoinAppend`, `JoinSplit`, `SplitJoin` and `JoinWellSeparated` |
| `Strings.JoinAppend` | src/main/java/io/disc99/protoc/gen/spring/generator/AbstractDescriptor.java:96 | joining one more part appends the separator and that part; this is the shape of the nested path |
| `Strings.Split` | src/main/java/io/disc99/protoc/gen/spring/generator/AbstractDescriptor.java:96 | splitting always gives at least one part, and no part contains the separator |
| `Strings.JoinSplit` | src/main/java/io/disc99/protoc/gen/spring/generator/AbstractDescriptor.java:96 | joining the parts of a string back on the separator gives the string |
| `Strings.SplitJoin` | src/main/java/io/disc99/protoc/gen/spring/generator/AbstractDescriptor.java:96 | splitting a join of separator-free parts gives back the parts |
| `Strings.SplitConcat` | src/main/java/io/disc99/protoc/gen/spring/generator/AbstractDescriptor.java:108 | the parts of `a . b` are the parts of `a` followed by those of `b` |
| `Strings.JoinWellSeparated` | src/main/java/io/disc99/protoc/gen/spring/generator/AbstractDescriptor.java:96 | joining well-formed parts never gives a leading, trailing or doubled separator |

## Left out

- Context.OuterClass.OnNewDescriptor: does not detect name collisions, because the outer class's source is not part of this model; it only records the name, in a ghost sequence, and never fails.
- `isMultipleFilesEnabled`, `getPluginJavaClass` and `getProtoJavaClass`: modelled as constant fields of the `OuterClass` stub. The source reads the flag on every call, but the flag is fixed once per file, so a constant captures the same behaviour.
- The registry's contents, registration and lookup: the registry's source is not part of this model. A descriptor only stores it by reference.
- The message, enum and field subclasses: they are not part of this model. Only the shared base is modelled.
- `StringUtils.join` is a foreign library. `Strings.Join` replaces it and is specified by its lemmas; the library's handling of `null` elements has no counterpart, because the names here are never `null`.
- The `outerMessages == null` test in `getNameWithinOuterClass`: it can never be true, because the constructor always builds a new list. The field is a plain sequence.
- The aliasing hazard the copy guards against: Dafny sequences are values, so the snapshot cannot share storage with the live stack. Independence then holds by construction, and `VisitNested` and `ExampleFile` state it.
- Context.FileDescriptorProcessingContext.PopOuter: on an empty stack it reports underflow and leaves the stack as it was, where the original fails; the context's source is not part of this model.
- The `@Nonnull` and `@Immutable` annotations: they document but are not checked.
- The `Segments` lemmas and `OriginalNameOmitsWrapperInMultipleFiles` require the enclosing names and the name to contain no `.`, and the `Segments` lemmas also the wrapper class they mention. Without that, splitting cannot recover the components. The `IsJoin` lemmas hold for all inputs, as does `OriginalNameNestsInWrapperWhenSingleFile` given a dot-free wrapper class name.
