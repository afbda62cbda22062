/** Protobuf descriptors as far as the wire header needs them: a parsed file is an
    ordered list of message declarations, each with its ordered nested
    declarations; a runtime message descriptor knows its own index and its
    parent. Models `computeMessageIndexes` (examples/protobuf/lib/serializer.go)
    and `resolveDescriptorByIndexes` (examples/protobuf/lib/deserializer.go). */
module Descriptors {
  import opened Common

  /** A message declaration and the messages declared inside it, in declaration order. */
  datatype MessageDecl = MessageDecl(name: string, nested: seq<MessageDecl>)

  /** A parsed schema file: its name, its package and its top-level messages. */
  datatype FileDecl = FileDecl(name: string, package: string, messages: seq<MessageDecl>)

  /** A `desc.Descriptor` handed to the resolver: a file, a message, or any other kind of
      declaration (enum, field, service, ...), of which only the name matters here. */
  datatype Node = FileNode(file: FileDecl) | MessageNode(msg: MessageDecl) | OtherNode(name: string)
  {
    /** `Descriptor.GetName()`. */
    function Name(): string
    {
      match this
      case FileNode(f) => f.name
      case MessageNode(m) => m.name
      case OtherNode(n) => n
    }
  }

  /** A runtime message descriptor (`protoreflect.Descriptor` of a message): the declaration,
      its `Index()` among its siblings and its `Parent()`. */
  datatype MessageDescriptor = MessageDescriptor(decl: MessageDecl, index: Index, parent: Parent)

  datatype Parent = InFile(file: FileDecl) | InMessage(outer: MessageDescriptor)

  /** Number of message levels from the file down to `d` (1 for a top-level message). */
  function Depth(d: MessageDescriptor): nat
  {
    match d.parent
    case InFile(_) => 1
    case InMessage(o) => 1 + Depth(o)
  }

  /** The file at the top of `d`'s parent chain. */
  function RootFile(d: MessageDescriptor): FileDecl
  {
    match d.parent
    case InFile(f) => f
    case InMessage(o) => RootFile(o)
  }

  /** The parent chain is that of a real parsed file: every descriptor is the declaration found
      at its index in its parent. */
  predicate WellFormed(d: MessageDescriptor)
  {
    match d.parent
    case InFile(f) => d.index < |f.messages| && f.messages[d.index] == d.decl
    case InMessage(o) => WellFormed(o) && d.index < |o.decl.nested| && o.decl.nested[d.index] == d.decl
  }

  /** `FullName()`: the package, then every enclosing message name, then the message's own name,
      joined with dots. */
  function FullName(d: MessageDescriptor): string
  {
    match d.parent
    case InFile(f) => if f.package == "" then d.decl.name else f.package + "." + d.decl.name
    case InMessage(o) => FullName(o) + "." + d.decl.name
  }

  /** `computeMessageIndexes`: the index path of `d`, root first, built by walking the parent
      chain. Its length is the nesting depth and its last element is `d`'s own index. */
  function ComputeMessageIndexes(d: MessageDescriptor): (path: seq<Index>)
    ensures |path| == Depth(d)
    ensures path[|path| - 1] == d.index
  {
    match d.parent
    case InFile(_) => [d.index]
    case InMessage(o) => ComputeMessageIndexes(o) + [d.index]
  }

  /** `resolveDescriptorByIndexes`: walks `msgIndexes` down from `node`. At a file an index past the
      last top-level message is `ErrTypeUndefinedInSchemaRegistry` (a negative one panics); at a message
      the nested index is not bounds-checked, so an out-of-range index panics; any other node with
      path left is `ErrTypeUndefinedInSchemaRegistry`. */
  function ResolveDescriptorByIndexes(msgIndexes: seq<int>, node: Node): (r: Outcome<Node>)
    ensures msgIndexes == [] ==> r == Ok(node)
    ensures msgIndexes != [] && r.Ok? ==> r.value.MessageNode?
    ensures msgIndexes != [] && node.OtherNode? ==> r == Err(TypeUndefinedInSchemaRegistry)
    decreases |msgIndexes|
  {
    if |msgIndexes| == 0 then Ok(node)
    else
      var index := msgIndexes[0];
      var rest := msgIndexes[1..];
      match node
      case FileNode(f) =>
        if index >= |f.messages| then Err(TypeUndefinedInSchemaRegistry)
        else if index < 0 then Panic
        else ResolveDescriptorByIndexes(rest, MessageNode(f.messages[index]))
      case MessageNode(m) =>
        if index < 0 || index >= |m.nested| then Panic
        else if |rest| > 0 then ResolveDescriptorByIndexes(rest, MessageNode(m.nested[index]))
        else Ok(MessageNode(m.nested[index]))
      case OtherNode(_) => Err(TypeUndefinedInSchemaRegistry)
  }

  // ---------------------------------------------------------------- positional addressing

  /** Every index of `path` is in range at its depth, starting from the declarations `decls`. */
  predicate ValidPath(decls: seq<MessageDecl>, path: seq<int>)
    decreases |path|
  {
    |path| > 0 && 0 <= path[0] < |decls| &&
    (|path| == 1 || ValidPath(decls[path[0]].nested, path[1..]))
  }

  /** The declaration a valid path addresses, by repeated positional lookup. */
  function Addressed(decls: seq<MessageDecl>, path: seq<int>): MessageDecl
    requires ValidPath(decls, path)
    decreases |path|
  {
    if |path| == 1 then decls[path[0]] else Addressed(decls[path[0]].nested, path[1..])
  }

  /** Below a message, a valid path resolves to the addressed message and an invalid one panics. */
  lemma {:induction false} ResolveFromMessage(m: MessageDecl, path: seq<int>)
    requires path != []
    ensures ValidPath(m.nested, path) ==>
      ResolveDescriptorByIndexes(path, MessageNode(m)) == Ok(MessageNode(Addressed(m.nested, path)))
    ensures !ValidPath(m.nested, path) ==> ResolveDescriptorByIndexes(path, MessageNode(m)) == Panic
    decreases |path|
  {
    if 0 <= path[0] < |m.nested| && |path| > 1 {
      ResolveFromMessage(m.nested[path[0]], path[1..]);
    }
  }

  /** From a file, resolution succeeds exactly on valid paths, and then yields the addressed
      message: it never returns a wrong node. A top-level index past the end is reported as
      `ErrTypeUndefinedInSchemaRegistry`. */
  lemma ResolveFromFile(f: FileDecl, path: seq<int>)
    requires path != []
    ensures ResolveDescriptorByIndexes(path, FileNode(f)).Ok? <==> ValidPath(f.messages, path)
    ensures ValidPath(f.messages, path) ==>
      ResolveDescriptorByIndexes(path, FileNode(f)) == Ok(MessageNode(Addressed(f.messages, path)))
    ensures path[0] >= |f.messages| ==> ResolveDescriptorByIndexes(path, FileNode(f)) == Err(TypeUndefinedInSchemaRegistry)
  {
    if 0 <= path[0] < |f.messages| && |path| > 1 {
      ResolveFromMessage(f.messages[path[0]], path[1..]);
    }
  }

  /** The path `computeMessageIndexes` gives a well-formed descriptor is valid in its file and
      addresses exactly the descriptor's declaration. */
  lemma {:induction false} ComputedPathAddressesDecl(d: MessageDescriptor)
    requires WellFormed(d)
    ensures ValidPath(RootFile(d).messages, ComputeMessageIndexes(d))
    ensures Addressed(RootFile(d).messages, ComputeMessageIndexes(d)) == d.decl
  {
    match d.parent
    case InFile(f) =>
    case InMessage(o) =>
      ComputedPathAddressesDecl(o);
      AppendToValidPath(RootFile(d).messages, ComputeMessageIndexes(o), d.index);
  }

  /** Extending a valid path by an index in range of the addressed message's nested list. */
  lemma {:induction false} AppendToValidPath(decls: seq<MessageDecl>, path: seq<int>, i: int)
    requires ValidPath(decls, path)
    requires 0 <= i < |Addressed(decls, path).nested|
    ensures ValidPath(decls, path + [i])
    ensures Addressed(decls, path + [i]) == Addressed(decls, path).nested[i]
    decreases |path|
  {
    var p := path + [i];
    assert p[0] == path[0] && p[1..] == (if |path| == 1 then [i] else path[1..] + [i]);
    if |path| > 1 {
      AppendToValidPath(decls[path[0]].nested, path[1..], i);
    }
  }

  /** Producer side of the protocol: resolving the computed path against the registry's copy of the
      same file finds the message being serialized. */
  lemma ComputedPathResolves(d: MessageDescriptor)
    requires WellFormed(d)
    ensures ResolveDescriptorByIndexes(ComputeMessageIndexes(d), FileNode(RootFile(d))) == Ok(MessageNode(d.decl))
  {
    ComputedPathAddressesDecl(d);
    ResolveFromFile(RootFile(d), ComputeMessageIndexes(d));
  }

  /** The descriptor of the message a valid path addresses, with its parent chain. */
  function DescriptorAt(f: FileDecl, path: seq<Index>): (d: MessageDescriptor)
    requires ValidPath(f.messages, path)
    decreases |path|
  {
    if |path| == 1 then MessageDescriptor(f.messages[path[0]], path[0], InFile(f))
    else
      var last := path[|path| - 1];
      var prefix := path[..|path| - 1];
      ValidPathPrefix(f.messages, path);
      var outer := DescriptorAt(f, prefix);
      MessageDescriptor(Addressed(f.messages, path), last, InMessage(outer))
  }

  /** A valid path of length at least two has a valid prefix. */
  lemma {:induction false} ValidPathPrefix(decls: seq<MessageDecl>, path: seq<int>)
    requires ValidPath(decls, path) && |path| >= 2
    ensures ValidPath(decls, path[..|path| - 1])
    ensures 0 <= path[|path| - 1] < |Addressed(decls, path[..|path| - 1]).nested|
    ensures Addressed(decls, path) == Addressed(decls, path[..|path| - 1]).nested[path[|path| - 1]]
    decreases |path|
  {
    var prefix := path[..|path| - 1];
    if |path| > 2 {
      assert path[1..][..|path[1..]| - 1] == prefix[1..];
      ValidPathPrefix(decls[path[0]].nested, path[1..]);
    }
  }

  /** The other direction of the round trip: for every valid path, the descriptor found there is
      well formed, lies in that file, and `computeMessageIndexes` gives back the path. */
  lemma {:induction false} ComputeMessageIndexesOfDescriptorAt(f: FileDecl, path: seq<Index>)
    requires ValidPath(f.messages, path)
    ensures WellFormed(DescriptorAt(f, path)) && RootFile(DescriptorAt(f, path)) == f
    ensures DescriptorAt(f, path).decl == Addressed(f.messages, path)
    ensures ComputeMessageIndexes(DescriptorAt(f, path)) == path
    decreases |path|
  {
    if |path| > 1 {
      var prefix := path[..|path| - 1];
      ValidPathPrefix(f.messages, path);
      ComputeMessageIndexesOfDescriptorAt(f, prefix);
      assert prefix + [path[|path| - 1]] == path;
    }
  }

  // ---------------------------------------------------------------- the test fixture

  function Leaf(name: string): MessageDecl
  {
    MessageDecl(name, [])
  }

  /** The schema of deserializer_test.go: MessageA { B { C }, D, E { F, G } } and MessageH { I }. */
  function TestFile(): FileDecl
  {
    FileDecl("schema", "test.package", [
      MessageDecl("MessageA", [
        MessageDecl("MessageB", [Leaf("MessageC")]),
        Leaf("MessageD"),
        MessageDecl("MessageE", [Leaf("MessageF"), Leaf("MessageG")])]),
      MessageDecl("MessageH", [Leaf("MessageI")])])
  }

  lemma TestFixturePaths()
    ensures ResolveDescriptorByIndexes([0, 2, 1], FileNode(TestFile())).Ok?
    ensures ResolveDescriptorByIndexes([0, 2, 1], FileNode(TestFile())).value.Name() == "MessageG"
    ensures ResolveDescriptorByIndexes([1, 0], FileNode(TestFile())).Ok?
    ensures ResolveDescriptorByIndexes([1, 0], FileNode(TestFile())).value.Name() == "MessageI"
    ensures ResolveDescriptorByIndexes([2], FileNode(TestFile())) == Err(TypeUndefinedInSchemaRegistry)
    ensures ResolveDescriptorByIndexes([0, 3], FileNode(TestFile())) == Panic
  {
  }
}
