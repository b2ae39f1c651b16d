/**
  The per-file processing context a descriptor is built from, with the outer
  class and the registry it refers to. These are stubs: they hold exactly the
  state a descriptor reads or changes, and nothing about collision checking or
  registry lookup.
 */
module Context {

  /** The registry of resolved descriptors; a descriptor only keeps a reference to it. */
  class Registry {
    constructor ()
    {
    }
  }

  /** The synthetic wrapper class generated for one .proto file. */
  class OuterClass {
    /** The wrapper class this generator emits. */
    const pluginJavaClass: string
    /** The wrapper class the protobuf compiler generates. */
    const protoJavaClass: string
    /** The file's generation mode, fixed once for the file. */
    const multipleFilesEnabled: bool
    /** The names descriptors have reported, in the order they were reported. */
    ghost var reported: seq<string>

    constructor (pluginJavaClass: string, protoJavaClass: string, multipleFilesEnabled: bool)
      ensures this.pluginJavaClass == pluginJavaClass
      ensures this.protoJavaClass == protoJavaClass
      ensures this.multipleFilesEnabled == multipleFilesEnabled
      ensures reported == []
    {
      this.pluginJavaClass := pluginJavaClass;
      this.protoJavaClass := protoJavaClass;
      this.multipleFilesEnabled := multipleFilesEnabled;
      reported := [];
    }

    /** Records a newly constructed descriptor's name. */
    method OnNewDescriptor(name: string)
      modifies this
      ensures reported == old(reported) + [name]
    {
      reported := reported + [name];
    }
  }

  /** The traversal state of one file: its packages, its outer class, the
      registry, and the live stack of enclosing message names. */
  class FileDescriptorProcessingContext {
    const javaPackage: string
    const protobufPackage: string
    const outerClass: OuterClass
    const registry: Registry
    /** The enclosing message names, outermost first; changes as the traversal
        enters and leaves nested messages. */
    var outers: seq<string>

    constructor (javaPackage: string, protobufPackage: string, outerClass: OuterClass, registry: Registry)
      ensures this.javaPackage == javaPackage && this.protobufPackage == protobufPackage
      ensures this.outerClass == outerClass && this.registry == registry
      ensures outers == []
    {
      this.javaPackage := javaPackage;
      this.protobufPackage := protobufPackage;
      this.outerClass := outerClass;
      this.registry := registry;
      outers := [];
    }

    /** Enters a nested message. */
    method PushOuter(name: string)
      modifies this
      ensures outers == old(outers) + [name]
    {
      outers := outers + [name];
    }

    /** Leaves the innermost message; on an empty stack reports underflow and
        changes nothing. */
    method PopOuter() returns (underflow: bool)
      modifies this
      ensures underflow <==> old(outers) == []
      ensures outers == if underflow then old(outers) else old(outers)[..|old(outers)| - 1]
    {
      underflow := outers == [];
      if !underflow {
        outers := outers[..|outers| - 1];
      }
    }
  }
}
