/**
 * The output of the service: a control-structure summary tree.
 *
 * Go strings holding source text are byte strings, so the text fields of a
 * summary node are sequences of bytes; the kind tags are fixed ASCII names
 * and are kept as Dafny strings.
 */
module Treenode {

  newtype byte = b: int | 0 <= b < 256

  type Bytes = seq<byte>

  /**
   * The bytes of a string literal: the low byte of each character, which for
   * the ASCII literals of the service is the character's code.
   */
  function AsciiBytes(s: string): (b: Bytes)
    ensures |b| == |s|
    ensures forall k | 0 <= k < |s| :: b[k] as int == s[k] as int % 256
  {
    seq(|s|, k requires 0 <= k < |s| => (s[k] as int % 256) as byte)
  }

  // The nine kind tags.
  const FUNCTION: string := "function"
  const IF: string := "if"
  const SWITCH: string := "switch"
  const CASE: string := "case"
  const FOR: string := "for"
  const WHILE: string := "while"
  const DOWHILE: string := "doWhile"
  const INSTRUCTION: string := "instruction"
  const TRY: string := "try"

  const Kinds: seq<string> := [FUNCTION, IF, SWITCH, CASE, FOR, WHILE, DOWHILE, INSTRUCTION, TRY]

  /** A summary node: a kind tag, a data text, a condition text and ordered children. */
  datatype TreeNode = TreeNode(typ: string, data: Bytes, condition: Bytes, nodes: seq<TreeNode>)

  /** The nine kind tags are pairwise different, so a tag identifies its kind. */
  lemma KindsDistinct()
    ensures |Kinds| == 9
    ensures forall i, j | 0 <= i < j < |Kinds| :: Kinds[i] != Kinds[j]
  {
  }
}
