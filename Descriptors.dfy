/**
  The qualified-name engine shared by every message, enum and field descriptor.

  A descriptor copies the packages, the outer class and the registry from the
  processing context, reports its name to the outer class, and takes its own
  copy of the context's stack of enclosing message names. Every name form is
  then a function of those fixed fields.
 */
module Descriptors {
  import opened Strings
  import opened Context

  class AbstractDescriptor {
    /** The unqualified name (what `getName` returns). */
    const name: string
    /** The Java package of the generated code (what `getJavaPkgName` returns). */
    const javaPkgName: string
    /** The protobuf package that declared the type (what `getProtoPkgName` returns). */
    const protoPkgName: string
    const outerClass: OuterClass
    const registry: Registry
    /** The enclosing message names, outermost first, as they stood at construction. */
    const outerMessages: seq<string>

    /** Copies the context's fields, reports `name` to the outer class once, and
        takes a snapshot of the context's stack of enclosing names. */
    constructor (context: FileDescriptorProcessingContext, name: string)
      modifies context.outerClass
      ensures this.name == name
      ensures javaPkgName == context.javaPackage && protoPkgName == context.protobufPackage
      ensures outerClass == context.outerClass && registry == context.registry
      ensures outerMessages == context.outers && context.outers == old(context.outers)
      ensures outerClass.reported == old(context.outerClass.reported) + [name]
    {
      this.name := name;
      javaPkgName := context.javaPackage;
      protoPkgName := context.protobufPackage;
      outerClass := context.outerClass;
      registry := context.registry;
      context.outerClass.OnNewDescriptor(name);
      outerMessages := context.outers;
    }

    /** The dotted path from the outermost enclosing message down to this type;
        just the name when the type is not nested. */
    function NameWithinOuterClass(): string
    {
      if outerMessages == [] then name else Join(outerMessages, ".") + "." + name
    }

    /** The fully qualified name of the class this generator emits. */
    function QualifiedName(): string
    {
      javaPkgName + "." + outerClass.pluginJavaClass + "." + NameWithinOuterClass()
    }

    /** The fully qualified name of the class the protobuf compiler generates:
        top-level in multiple-files mode, nested in its wrapper class otherwise. */
    function QualifiedOriginalName(): string
    {
      if outerClass.multipleFilesEnabled then
        javaPkgName + "." + NameWithinOuterClass()
      else
        javaPkgName + "." + outerClass.protoJavaClass + "." + NameWithinOuterClass()
    }

    /** The protobuf fully qualified type name. */
    function QualifiedProtoName(): string
    {
      protoPkgName + "." + NameWithinOuterClass()
    }
  }

  /** None of the strings contains a `.`. */
  predicate DotFree(parts: seq<string>)
  {
    forall i :: 0 <= i < |parts| ==> '.' !in parts[i]
  }

  /** Each of the strings is non-empty, with no leading, trailing or doubled `.`. */
  predicate AllWellSeparated(parts: seq<string>)
  {
    forall i :: 0 <= i < |parts| ==> WellSeparated(parts[i], '.')
  }

  /** The name within the outer class is the enclosing names and the name joined
      on `.`: just the name for a top-level type, and always ending with it. */
  lemma NameWithinOuterClassIsJoin(d: AbstractDescriptor)
    ensures d.NameWithinOuterClass() == Join(d.outerMessages + [d.name], ".")
    ensures d.outerMessages == [] ==> d.NameWithinOuterClass() == d.name
    ensures |d.name| <= |d.NameWithinOuterClass()|
    ensures d.NameWithinOuterClass()[|d.NameWithinOuterClass()| - |d.name|..] == d.name
  {
    if d.outerMessages == [] {
      assert d.outerMessages + [d.name] == [d.name];
    } else {
      JoinAppend(d.outerMessages, d.name, ".");
    }
  }

  /** Entering one more enclosing message puts its name, then a `.`, in front of
      the nested part of the path. */
  lemma NameWithinOuterClassNests(d: AbstractDescriptor, e: AbstractDescriptor)
    requires e.outerMessages == d.outerMessages + [d.name]
    ensures e.NameWithinOuterClass() == d.NameWithinOuterClass() + "." + e.name
  {
    NameWithinOuterClassIsJoin(d);
    JoinAppend(d.outerMessages + [d.name], e.name, ".");
  }

  /** The qualified name is the Java package, the plugin wrapper class, the
      enclosing names and the name, joined on `.`. */
  lemma QualifiedNameIsJoin(d: AbstractDescriptor)
    ensures d.QualifiedName()
         == Join([d.javaPkgName, d.outerClass.pluginJavaClass] + d.outerMessages + [d.name], ".")
  {
    var plugin := d.outerClass.pluginJavaClass;
    var path := d.outerMessages + [d.name];
    NameWithinOuterClassIsJoin(d);
    JoinPrepend(plugin, path, ".");
    JoinPrepend(d.javaPkgName, [plugin] + path, ".");
    assert [d.javaPkgName] + ([plugin] + path) == [d.javaPkgName, plugin] + d.outerMessages + [d.name];
  }

  /** The protobuf compiler's class name has its wrapper class as the second
      component exactly when multiple-files mode is off. */
  lemma QualifiedOriginalNameIsJoin(d: AbstractDescriptor)
    ensures d.outerClass.multipleFilesEnabled ==>
      d.QualifiedOriginalName() == Join([d.javaPkgName] + d.outerMessages + [d.name], ".")
    ensures !d.outerClass.multipleFilesEnabled ==>
      d.QualifiedOriginalName()
        == Join([d.javaPkgName, d.outerClass.protoJavaClass] + d.outerMessages + [d.name], ".")
  {
    var proto := d.outerClass.protoJavaClass;
    var path := d.outerMessages + [d.name];
    NameWithinOuterClassIsJoin(d);
    JoinPrepend(d.javaPkgName, path, ".");
    assert [d.javaPkgName] + path == [d.javaPkgName] + d.outerMessages + [d.name];
    JoinPrepend(proto, path, ".");
    JoinPrepend(d.javaPkgName, [proto] + path, ".");
    assert [d.javaPkgName] + ([proto] + path) == [d.javaPkgName, proto] + d.outerMessages + [d.name];
  }

  /** The protobuf name is the protobuf package, the enclosing names and the
      name, joined on `.`. */
  lemma QualifiedProtoNameIsJoin(d: AbstractDescriptor)
    ensures d.QualifiedProtoName() == Join([d.protoPkgName] + d.outerMessages + [d.name], ".")
  {
    var path := d.outerMessages + [d.name];
    NameWithinOuterClassIsJoin(d);
    JoinPrepend(d.protoPkgName, path, ".");
    assert [d.protoPkgName] + path == [d.protoPkgName] + d.outerMessages + [d.name];
  }

  /** Round trip: splitting the name within the outer class on `.` gives back the
      enclosing names followed by the name. */
  lemma NameWithinOuterClassSegments(d: AbstractDescriptor)
    requires DotFree(d.outerMessages) && '.' !in d.name
    ensures Split(d.NameWithinOuterClass(), '.') == d.outerMessages + [d.name]
  {
    var path := d.outerMessages + [d.name];
    assert DotFree(path) by {
      forall i | 0 <= i < |path| ensures '.' !in path[i] {
        if i < |d.outerMessages| { assert path[i] == d.outerMessages[i]; }
      }
    }
    NameWithinOuterClassIsJoin(d);
    SplitJoin(path, '.');
  }

  /** The qualified name splits into the Java package's segments, the plugin
      wrapper class, the enclosing names and the name. */
  lemma QualifiedNameSegments(d: AbstractDescriptor)
    requires '.' !in d.outerClass.pluginJavaClass && DotFree(d.outerMessages) && '.' !in d.name
    ensures Split(d.QualifiedName(), '.')
         == Split(d.javaPkgName, '.') + [d.outerClass.pluginJavaClass] + d.outerMessages + [d.name]
  {
    var plugin := d.outerClass.pluginJavaClass;
    var within := d.NameWithinOuterClass();
    SplitAround(d.javaPkgName, plugin, within, '.');
    NameWithinOuterClassSegments(d);
  }

  /** The protobuf compiler's class name splits into the Java package's segments,
      its wrapper class unless multiple-files mode is on, the enclosing names and
      the name. */
  lemma QualifiedOriginalNameSegments(d: AbstractDescriptor)
    requires '.' !in d.outerClass.protoJavaClass && DotFree(d.outerMessages) && '.' !in d.name
    ensures d.outerClass.multipleFilesEnabled ==>
      Split(d.QualifiedOriginalName(), '.')
        == Split(d.javaPkgName, '.') + d.outerMessages + [d.name]
    ensures !d.outerClass.multipleFilesEnabled ==>
      Split(d.QualifiedOriginalName(), '.')
        == Split(d.javaPkgName, '.') + [d.outerClass.protoJavaClass] + d.outerMessages + [d.name]
  {
    var proto := d.outerClass.protoJavaClass;
    var within := d.NameWithinOuterClass();
    NameWithinOuterClassSegments(d);
    if d.outerClass.multipleFilesEnabled {
      SplitConcat(d.javaPkgName, within, '.');
    } else {
      SplitAround(d.javaPkgName, proto, within, '.');
    }
  }

  /** With multiple-files mode off, the protobuf compiler's wrapper class is a
      segment of the original name, right after the Java package's segments. */
  lemma OriginalNameNestsInWrapperWhenSingleFile(d: AbstractDescriptor)
    requires '.' !in d.outerClass.protoJavaClass
    ensures !d.outerClass.multipleFilesEnabled ==>
      d.outerClass.protoJavaClass in Split(d.QualifiedOriginalName(), '.')
  {
    if !d.outerClass.multipleFilesEnabled {
      var pkg := Split(d.javaPkgName, '.');
      var proto := d.outerClass.protoJavaClass;
      var within := d.NameWithinOuterClass();
      SplitAround(d.javaPkgName, proto, within, '.');
      assert (pkg + [proto] + Split(within, '.'))[|pkg|] == proto;
    }
  }

  /** In multiple-files mode the original name is top-level: when the wrapper
      class name is not itself a package segment, an enclosing name or the name,
      it is not a segment of the original name. */
  lemma OriginalNameOmitsWrapperInMultipleFiles(d: AbstractDescriptor)
    requires DotFree(d.outerMessages) && '.' !in d.name
    requires d.outerClass.protoJavaClass !in Split(d.javaPkgName, '.') + d.outerMessages + [d.name]
    ensures d.outerClass.multipleFilesEnabled ==>
      d.outerClass.protoJavaClass !in Split(d.QualifiedOriginalName(), '.')
  {
    if d.outerClass.multipleFilesEnabled {
      SplitConcat(d.javaPkgName, d.NameWithinOuterClass(), '.');
      NameWithinOuterClassSegments(d);
    }
  }

  /** The protobuf name splits into the protobuf package's segments, the
      enclosing names and the name; no Java name takes part in it. */
  lemma QualifiedProtoNameSegments(d: AbstractDescriptor)
    requires DotFree(d.outerMessages) && '.' !in d.name
    ensures Split(d.QualifiedProtoName(), '.') == Split(d.protoPkgName, '.') + d.outerMessages + [d.name]
  {
    var within := d.NameWithinOuterClass();
    SplitConcat(d.protoPkgName, within, '.');
    NameWithinOuterClassSegments(d);
  }

  /** No stray separator in the name within the outer class: with well-formed
      parts, a top-level name gets no `.` added and a nested one exactly one
      `.` between neighbours. */
  lemma NameWithinOuterClassWellSeparated(d: AbstractDescriptor)
    requires AllWellSeparated(d.outerMessages) && WellSeparated(d.name, '.')
    ensures WellSeparated(d.NameWithinOuterClass(), '.')
  {
    var path := d.outerMessages + [d.name];
    assert AllWellSeparated(path) by {
      forall i | 0 <= i < |path| ensures WellSeparated(path[i], '.') {
        if i < |d.outerMessages| { assert path[i] == d.outerMessages[i]; }
      }
    }
    NameWithinOuterClassIsJoin(d);
    JoinWellSeparated(path, '.');
  }

  /** No stray separator in the qualified name, whatever the nesting depth. */
  lemma QualifiedNameWellSeparated(d: AbstractDescriptor)
    requires WellSeparated(d.javaPkgName, '.') && WellSeparated(d.outerClass.pluginJavaClass, '.')
    requires AllWellSeparated(d.outerMessages) && WellSeparated(d.name, '.')
    ensures WellSeparated(d.QualifiedName(), '.')
  {
    var plugin := d.outerClass.pluginJavaClass;
    var within := d.NameWithinOuterClass();
    NameWithinOuterClassWellSeparated(d);
    ConcatWellSeparated(plugin, within, '.');
    ConcatWellSeparated(d.javaPkgName, plugin + "." + within, '.');
    assert d.QualifiedName() == d.javaPkgName + ['.'] + (plugin + ['.'] + within);
  }

  /** No stray separator in the protobuf compiler's class name, in either mode. */
  lemma QualifiedOriginalNameWellSeparated(d: AbstractDescriptor)
    requires WellSeparated(d.javaPkgName, '.') && WellSeparated(d.outerClass.protoJavaClass, '.')
    requires AllWellSeparated(d.outerMessages) && WellSeparated(d.name, '.')
    ensures WellSeparated(d.QualifiedOriginalName(), '.')
  {
    var proto := d.outerClass.protoJavaClass;
    var within := d.NameWithinOuterClass();
    NameWithinOuterClassWellSeparated(d);
    if d.outerClass.multipleFilesEnabled {
      ConcatWellSeparated(d.javaPkgName, within, '.');
    } else {
      ConcatWellSeparated(proto, within, '.');
      ConcatWellSeparated(d.javaPkgName, proto + "." + within, '.');
      assert d.QualifiedOriginalName() == d.javaPkgName + ['.'] + (proto + ['.'] + within);
    }
  }

  /** No stray separator in the protobuf name. */
  lemma QualifiedProtoNameWellSeparated(d: AbstractDescriptor)
    requires WellSeparated(d.protoPkgName, '.')
    requires AllWellSeparated(d.outerMessages) && WellSeparated(d.name, '.')
    ensures WellSeparated(d.QualifiedProtoName(), '.')
  {
    NameWithinOuterClassWellSeparated(d);
    ConcatWellSeparated(d.protoPkgName, d.NameWithinOuterClass(), '.');
  }

  /** In the default (empty) package the qualified names start with a `.`, as
      the concatenations in the source produce. */
  lemma DefaultPackageLeadingSeparator(d: AbstractDescriptor)
    ensures d.javaPkgName == "" ==> d.QualifiedName()[0] == '.' && d.QualifiedOriginalName()[0] == '.'
    ensures d.protoPkgName == "" ==> d.QualifiedProtoName()[0] == '.'
  {
  }

  /** One step of the depth-first traversal: a descriptor for a message, then,
      inside it, one for a nested type. Each keeps the stack as it stood when it
      was built, although the stack is pushed and popped around them. */
  method VisitNested(context: FileDescriptorProcessingContext, outerName: string, innerName: string)
    returns (outer: AbstractDescriptor, inner: AbstractDescriptor, underflow: bool)
    modifies context, context.outerClass
    ensures fresh(outer) && fresh(inner)
    ensures outer.name == outerName && inner.name == innerName
    ensures !underflow
    ensures outer.outerMessages == old(context.outers)
    ensures inner.outerMessages == old(context.outers) + [outerName]
    ensures inner.NameWithinOuterClass() == outer.NameWithinOuterClass() + "." + innerName
    ensures context.outers == old(context.outers)
    ensures context.outerClass.reported == old(context.outerClass.reported) + [outerName, innerName]
  {
    outer := new AbstractDescriptor(context, outerName);
    context.PushOuter(outerName);
    inner := new AbstractDescriptor(context, innerName);
    underflow := context.PopOuter();
    NameWithinOuterClassNests(outer, inner);
  }

  /** The file settings of the example below: Java package `com.example`,
      protobuf package `pkg.v1`, wrapper classes `ExampleOuter` (this generator)
      and `ExampleProto` (the protobuf compiler), multiple-files mode off. */
  predicate InExampleFile(d: AbstractDescriptor)
  {
    && d.javaPkgName == "com.example"
    && d.protoPkgName == "pkg.v1"
    && d.outerClass.pluginJavaClass == "ExampleOuter"
    && d.outerClass.protoJavaClass == "ExampleProto"
    && !d.outerClass.multipleFilesEnabled
  }

  /** Builds the descriptors of `message Msg { message Msg2 { message Msg3 {} } }`
      in traversal order, pushing and popping the stack around the nested ones. */
  method ExampleFile() returns (msg: AbstractDescriptor, msg2: AbstractDescriptor, msg3: AbstractDescriptor)
    ensures InExampleFile(msg) && InExampleFile(msg2) && InExampleFile(msg3)
    ensures msg.name == "Msg" && msg.outerMessages == []
    ensures msg2.name == "Msg2" && msg2.outerMessages == ["Msg"]
    ensures msg3.name == "Msg3" && msg3.outerMessages == ["Msg", "Msg2"]
    ensures msg.outerClass == msg2.outerClass == msg3.outerClass
    ensures msg.outerClass.reported == ["Msg", "Msg2", "Msg3"]
  {
    var outerClass := new OuterClass("ExampleOuter", "ExampleProto", false);
    var registry := new Registry();
    var context := new FileDescriptorProcessingContext("com.example", "pkg.v1", outerClass, registry);
    msg := new AbstractDescriptor(context, "Msg");
    context.PushOuter("Msg");
    msg2 := new AbstractDescriptor(context, "Msg2");
    context.PushOuter("Msg2");
    msg3 := new AbstractDescriptor(context, "Msg3");
    var underflow := context.PopOuter();
    underflow := context.PopOuter();
  }

  /** The top-level message of the example. */
  lemma ExampleTopLevelNames(msg: AbstractDescriptor)
    requires InExampleFile(msg) && msg.name == "Msg" && msg.outerMessages == []
    ensures msg.NameWithinOuterClass() == "Msg"
    ensures msg.QualifiedName() == "com.example.ExampleOuter.Msg"
  {
  }

  /** The class this generator emits for the message nested once in the example. */
  lemma ExampleNestedQualifiedName(msg2: AbstractDescriptor)
    requires InExampleFile(msg2) && msg2.name == "Msg2" && msg2.outerMessages == ["Msg"]
    ensures msg2.QualifiedName() == "com.example.ExampleOuter.Msg.Msg2"
  {
    assert msg2.NameWithinOuterClass() == "Msg.Msg2";
  }

  /** The protobuf compiler's class for it: nested in `ExampleProto`. */
  lemma ExampleNestedOriginalName(msg2: AbstractDescriptor)
    requires InExampleFile(msg2) && msg2.name == "Msg2" && msg2.outerMessages == ["Msg"]
    ensures msg2.QualifiedOriginalName() == "com.example.ExampleProto.Msg.Msg2"
  {
    assert msg2.NameWithinOuterClass() == "Msg.Msg2";
  }

  /** Its protobuf type name. */
  lemma ExampleNestedProtoName(msg2: AbstractDescriptor)
    requires InExampleFile(msg2) && msg2.name == "Msg2" && msg2.outerMessages == ["Msg"]
    ensures msg2.QualifiedProtoName() == "pkg.v1.Msg.Msg2"
  {
    assert msg2.NameWithinOuterClass() == "Msg.Msg2";
  }

  /** The message nested twice in the example. */
  lemma ExampleDoublyNestedName(msg3: AbstractDescriptor)
    requires msg3.name == "Msg3" && msg3.outerMessages == ["Msg", "Msg2"]
    ensures msg3.NameWithinOuterClass() == "Msg.Msg2.Msg3"
  {
    assert ["Msg", "Msg2"][1..] == ["Msg2"];
  }
}
