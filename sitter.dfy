/**
 * The parse-tree node capability that the external incremental parser
 * supplies: a type tag, a byte range of the source, the named children in
 * order, and lookup of a child by its field label.
 *
 * A field label maps to the index of a named child, so that every node a
 * field lookup returns is structurally smaller than the node it came from.
 */
module Sitter {
  import opened Treenode

  datatype Option<T> = None | Some(value: T)

  datatype Node = Node(typ: string, startByte: nat, endByte: nat, named: seq<Node>, fields: map<string, nat>)

  /** The child under field label `name`, or None when the node has no such field. */
  function ChildByFieldName(n: Node, name: string): (r: Option<Node>)
    ensures r.Some? <==> name in n.fields && n.fields[name] < |n.named|
    ensures r.Some? ==> r.value == n.named[n.fields[name]]
  {
    if name in n.fields && n.fields[name] < |n.named| then Some(n.named[n.fields[name]]) else None
  }

  /** The node's byte range lies inside a source of `len` bytes (slicing it cannot fail). */
  predicate SpanIn(n: Node, len: nat) {
    n.startByte <= n.endByte <= len
  }

  /** The source bytes a node covers. */
  function Text(n: Node, src: Bytes): (t: Bytes)
    requires SpanIn(n, |src|)
    ensures |t| == n.endByte - n.startByte
    ensures forall k | 0 <= k < |t| :: t[k] == src[n.startByte + k]
  {
    src[n.startByte..n.endByte]
  }
}
