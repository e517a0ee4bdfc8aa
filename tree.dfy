/**
 * The tree-reshaping core of the service: locating function nodes anywhere
 * in a parse tree, and building the control-structure summary of a body.
 *
 * Each operation has a pure recursive specification (Extract, FindFunctions)
 * and a method that builds its result the way the service does, with index
 * loops, append accumulators and an in-place overwrite of branch tags; each
 * method is proved equal to its specification.
 *
 * The service dereferences fields without checking that they exist and
 * slices the source without checking the bounds; the predicates ChildOk,
 * Extractable and Locatable state that every field it dereferences exists
 * and every slice lies within the source text, and the operations require
 * them.
 */
module Server {
  import opened Treenode
  import opened Sitter

  // The branch tags written into the condition text.
  const TrueTag: Bytes := AsciiBytes("true")
  const FalseTag: Bytes := AsciiBytes("false")
  const DefaultTag: Bytes := AsciiBytes("default")

  /** The statement types the builder has a case for; every other type is dropped. */
  const Recognised: set<string> := {
    "compound_statement", "return_statement", "expression_statement", "for_statement",
    "while_statement", "do_statement", "declaration", "if_statement", "case_statement",
    "switch_statement"
  }

  /** A parse node that defines or declares a function. */
  predicate IsFunctionNode(nodeType: string) {
    nodeType == "function_definition" || nodeType == "function_declaration"
  }

  // ---------------------------------------------------------------------------
  // When the builder cannot fail

  /** The node has a `condition` field whose node has a `value` field inside the source. */
  predicate HasValueSpan(c: Node, src: Bytes) {
    var cond := ChildByFieldName(c, "condition");
    cond.Some? && ChildByFieldName(cond.value, "value").Some?
    && SpanIn(ChildByFieldName(cond.value, "value").value, |src|)
  }

  /** The `value` node inside the `condition` field (the test without its parentheses). */
  function ConditionValue(c: Node, src: Bytes): (v: Node)
    requires HasValueSpan(c, src)
    ensures SpanIn(v, |src|)
  {
    ChildByFieldName(ChildByFieldName(c, "condition").value, "value").value
  }

  /** A `for` header: both header slices the service takes are inside the source. */
  predicate ForHeaderOk(c: Node, src: Bytes) {
    var init := ChildByFieldName(c, "initializer");
    var cond := ChildByFieldName(c, "condition");
    var upd := ChildByFieldName(c, "update");
    init.Some? && cond.Some?
    && init.value.startByte <= cond.value.endByte <= |src|
    && (upd.Some? ==> init.value.startByte <= upd.value.endByte <= |src|)
  }

  /** The header text of a `for` loop: from the initializer through the update, or through the condition when there is no update. */
  function ForHeader(c: Node, src: Bytes): (h: Bytes)
    requires ForHeaderOk(c, src)
  {
    var init := ChildByFieldName(c, "initializer").value;
    var upd := ChildByFieldName(c, "update");
    if upd.Some? then src[init.startByte..upd.value.endByte]
    else src[init.startByte..ChildByFieldName(c, "condition").value.endByte]
  }

  /** The node has a `body` field and the body can be summarised. */
  predicate BodyOk(c: Node, src: Bytes)
    decreases c, 1
  {
    var body := ChildByFieldName(c, "body");
    body.Some? && Extractable(body.value, src)
  }

  /** The `body` field of a loop or function node. */
  function Body(c: Node, src: Bytes): (b: Node)
    requires BodyOk(c, src)
    ensures "body" in c.fields && c.fields["body"] < |c.named| && b == c.named[c.fields["body"]]
    ensures Extractable(b, src)
  {
    ChildByFieldName(c, "body").value
  }

  // What each recognised statement needs.

  predicate ForOk(c: Node, src: Bytes)
    decreases c, 2
  {
    ForHeaderOk(c, src) && BodyOk(c, src)
  }

  predicate WhileOk(c: Node, src: Bytes)
    decreases c, 2
  {
    HasValueSpan(c, src) && BodyOk(c, src)
  }

  predicate DoOk(c: Node, src: Bytes)
    decreases c, 2
  {
    var cond := ChildByFieldName(c, "condition");
    cond.Some? && SpanIn(cond.value, |src|) && BodyOk(c, src)
  }

  predicate IfOk(c: Node, src: Bytes)
    decreases c, 2
  {
    var alt := ChildByFieldName(c, "alternative");
    HasValueSpan(c, src) && Extractable(c, src) && (alt.Some? ==> Extractable(alt.value, src))
  }

  predicate CaseOk(c: Node, src: Bytes)
    decreases c, 2
  {
    var value := ChildByFieldName(c, "value");
    (value.Some? ==> SpanIn(value.value, |src|)) && Extractable(c, src)
  }

  predicate SwitchOk(c: Node, src: Bytes)
    decreases c, 2
  {
    HasValueSpan(c, src) && Extractable(c, src)
  }

  /** Classifying child `c` of a body cannot fail. */
  predicate ChildOk(c: Node, src: Bytes)
    decreases c, 3
  {
    match c.typ
    case "compound_statement" => Extractable(c, src)
    case "return_statement" => SpanIn(c, |src|)
    case "expression_statement" => SpanIn(c, |src|)
    case "declaration" => SpanIn(c, |src|)
    case "for_statement" => ForOk(c, src)
    case "while_statement" => WhileOk(c, src)
    case "do_statement" => DoOk(c, src)
    case "if_statement" => IfOk(c, src)
    case "case_statement" => CaseOk(c, src)
    case "switch_statement" => SwitchOk(c, src)
    case _ => true
  }

  /** Every child in `s` can be classified. */
  predicate AllOk(s: seq<Node>, src: Bytes)
    decreases s, 0
  {
    forall i | 0 <= i < |s| :: ChildOk(s[i], src)
  }

  /** Summarising the named children of `n` cannot fail. */
  predicate Extractable(n: Node, src: Bytes)
    decreases n, 1
  {
    AllOk(n.named, src)
  }

  // ---------------------------------------------------------------------------
  // The builder, as a specification

  /** Every summary node of `ts` with its condition text replaced by `tag`. */
  function Retag(ts: seq<TreeNode>, tag: Bytes): (r: seq<TreeNode>) {
    seq(|ts|, j requires 0 <= j < |ts| => ts[j].(condition := tag))
  }

  /** The summary of the named children of `n`. */
  function Extract(n: Node, src: Bytes): (ts: seq<TreeNode>)
    requires Extractable(n, src)
    decreases n, 1
  {
    ExtractAll(n.named, src)
  }

  /** The blocks of the children in `s`, in order. */
  function ExtractAll(s: seq<Node>, src: Bytes): (ts: seq<TreeNode>)
    requires AllOk(s, src)
    decreases s, 0
  {
    if s == [] then [] else ExtractAll(s[..|s| - 1], src) + Classify(s[|s| - 1], src)
  }

  /** The block that one child contributes to its parent's summary. */
  function Classify(c: Node, src: Bytes): (ts: seq<TreeNode>)
    requires ChildOk(c, src)
    decreases c, 3
  {
    match c.typ
    case "compound_statement" => Extract(c, src)
    case "return_statement" => [Instruction(c, src)]
    case "expression_statement" => [Instruction(c, src)]
    case "declaration" => [Instruction(c, src)]
    case "for_statement" => [ForSummary(c, src)]
    case "while_statement" => [WhileSummary(c, src)]
    case "do_statement" => [DoWhileSummary(c, src)]
    case "if_statement" => [IfSummary(c, src)]
    case "case_statement" => [CaseSummary(c, src)]
    case "switch_statement" => [SwitchSummary(c, src)]
    case _ => []
  }

  /** A plain statement: its whole text, no children. */
  function Instruction(c: Node, src: Bytes): (t: TreeNode)
    requires SpanIn(c, |src|)
  {
    TreeNode(INSTRUCTION, Text(c, src), [], [])
  }

  function ForSummary(c: Node, src: Bytes): (t: TreeNode)
    requires ForOk(c, src)
    decreases c, 2
  {
    TreeNode(FOR, [], ForHeader(c, src), Extract(Body(c, src), src))
  }

  function WhileSummary(c: Node, src: Bytes): (t: TreeNode)
    requires WhileOk(c, src)
    decreases c, 2
  {
    TreeNode(WHILE, [], Text(ConditionValue(c, src), src), Extract(Body(c, src), src))
  }

  function DoWhileSummary(c: Node, src: Bytes): (t: TreeNode)
    requires DoOk(c, src)
    decreases c, 2
  {
    TreeNode(DOWHILE, [], Text(ChildByFieldName(c, "condition").value, src), Extract(Body(c, src), src))
  }

  function IfSummary(c: Node, src: Bytes): (t: TreeNode)
    requires IfOk(c, src)
    decreases c, 2
  {
    var alt := ChildByFieldName(c, "alternative");
    var consequence := Retag(Extract(c, src), TrueTag);
    var alternative := if alt.Some? then Retag(Extract(alt.value, src), FalseTag) else [];
    TreeNode(IF, Text(ConditionValue(c, src), src), [], consequence + alternative)
  }

  function CaseSummary(c: Node, src: Bytes): (t: TreeNode)
    requires CaseOk(c, src)
    decreases c, 2
  {
    var value := ChildByFieldName(c, "value");
    TreeNode(CASE, [], if value.Some? then Text(value.value, src) else DefaultTag, Extract(c, src))
  }

  function SwitchSummary(c: Node, src: Bytes): (t: TreeNode)
    requires SwitchOk(c, src)
    decreases c, 2
  {
    TreeNode(SWITCH, Text(ConditionValue(c, src), src), [], Extract(c, src))
  }

  // ---------------------------------------------------------------------------
  // The locator, as a specification

  /** A function node has a declarator inside the source and a body that can be summarised. */
  predicate FunctionOk(n: Node, src: Bytes)
    decreases n, 2
  {
    var decl := ChildByFieldName(n, "declarator");
    decl.Some? && SpanIn(decl.value, |src|) && BodyOk(n, src)
  }

  /** Locating the functions of the tree under `n` cannot fail. */
  predicate Locatable(n: Node, src: Bytes)
    decreases n, 3
  {
    (IsFunctionNode(n.typ) ==> FunctionOk(n, src)) && LocatableAll(n.named, src)
  }

  /** Every tree in `s` is Locatable. */
  predicate LocatableAll(s: seq<Node>, src: Bytes)
    decreases s, 0
  {
    forall i | 0 <= i < |s| :: Locatable(s[i], src)
  }

  /** The `function` summary of function node `n`. */
  function FunctionEntry(n: Node, src: Bytes): (t: TreeNode)
    requires FunctionOk(n, src)
  {
    TreeNode(FUNCTION, Text(ChildByFieldName(n, "declarator").value, src), [],
             Extract(Body(n, src), src))
  }

  /** The function summaries of the tree under `n`: its own, then its children's in order. */
  function FindFunctions(n: Node, src: Bytes): (fs: seq<TreeNode>)
    requires Locatable(n, src)
    decreases n, 1
  {
    (if IsFunctionNode(n.typ) then [FunctionEntry(n, src)] else []) + FindAll(n.named, src)
  }

  /** The function summaries of the trees in `s`, in order. */
  function FindAll(s: seq<Node>, src: Bytes): (fs: seq<TreeNode>)
    requires LocatableAll(s, src)
    decreases s, 0
  {
    if s == [] then [] else FindAll(s[..|s| - 1], src) + FindFunctions(s[|s| - 1], src)
  }

  // ---------------------------------------------------------------------------
  // The service's own loops

  /** Appends the elements of `nodes` to `acc` one at a time. */
  method AppendAll(acc: seq<TreeNode>, nodes: seq<TreeNode>) returns (r: seq<TreeNode>)
    ensures r == acc + nodes
  {
    r := acc;
    for j := 0 to |nodes|
      invariant r == acc + nodes[..j]
    {
      r := r + [nodes[j]];
    }
    assert nodes[..|nodes|] == nodes;
  }

  /** Overwrites the condition of each element of `nodes` with `tag`, appending it to `acc`. */
  method AppendRetagged(acc: seq<TreeNode>, nodes: seq<TreeNode>, tag: Bytes) returns (r: seq<TreeNode>)
    ensures r == acc + Retag(nodes, tag)
  {
    var ns := nodes;
    r := acc;
    for j := 0 to |ns|
      invariant |ns| == |nodes|
      invariant forall k | j <= k < |ns| :: ns[k] == nodes[k]
      invariant r == acc + Retag(nodes, tag)[..j]
    {
      ns := ns[j := ns[j].(condition := tag)];
      r := r + [ns[j]];
    }
    assert Retag(nodes, tag)[..|nodes|] == Retag(nodes, tag);
  }

  /** Builds the summary of the named children of `node`. */
  method ExtractNodes(node: Node, src: Bytes) returns (bodyNodes: seq<TreeNode>)
    requires Extractable(node, src)
    ensures bodyNodes == Extract(node, src)
    decreases node, 1
  {
    bodyNodes := [];
    for i := 0 to |node.named|
      invariant bodyNodes == ExtractAll(node.named[..i], src)
    {
      var child := node.named[i];
      assert node.named[..i + 1][..i] == node.named[..i];
      assert ChildOk(child, src);
      assert ExtractAll(node.named[..i + 1], src) == ExtractAll(node.named[..i], src) + Classify(child, src);
      match child.typ
      case "compound_statement" =>
        var nodes := ExtractNodes(child, src);
        bodyNodes := AppendAll(bodyNodes, nodes);
      case "return_statement" =>
        bodyNodes := bodyNodes + [TreeNode(INSTRUCTION, src[child.startByte..child.endByte], [], [])];
      case "expression_statement" =>
        bodyNodes := bodyNodes + [TreeNode(INSTRUCTION, src[child.startByte..child.endByte], [], [])];
      case "for_statement" =>
        var bodyNode := ForNode(child, src);
        bodyNodes := bodyNodes + [bodyNode];
      case "while_statement" =>
        var bodyNode := WhileNode(child, src);
        bodyNodes := bodyNodes + [bodyNode];
      case "do_statement" =>
        var bodyNode := DoWhileNode(child, src);
        bodyNodes := bodyNodes + [bodyNode];
      case "declaration" =>
        bodyNodes := bodyNodes + [TreeNode(INSTRUCTION, src[child.startByte..child.endByte], [], [])];
      case "if_statement" =>
        var bodyNode := IfNode(child, src);
        bodyNodes := bodyNodes + [bodyNode];
      case "case_statement" =>
        var bodyNode := CaseNode(child, src);
        bodyNodes := bodyNodes + [bodyNode];
      case "switch_statement" =>
        var bodyNode := SwitchNode(child, src);
        bodyNodes := bodyNodes + [bodyNode];
      case _ =>
    }
    assert node.named[..|node.named|] == node.named;
  }

  /** The summary node of a `for` loop. */
  method ForNode(child: Node, src: Bytes) returns (bodyNode: TreeNode)
    requires ForOk(child, src)
    ensures bodyNode == ForSummary(child, src)
    decreases child, 2
  {
    var declaration := ChildByFieldName(child, "initializer").value;
    var condition := ChildByFieldName(child, "condition").value;
    var update := ChildByFieldName(child, "update");
    var newCondition := src[declaration.startByte..condition.endByte];
    if update.Some? {
      newCondition := src[declaration.startByte..update.value.endByte];
    }
    var body := ChildByFieldName(child, "body");
    assert body == Some(Body(child, src));
    var nodes := ExtractNodes(body.value, src);
    var sub := AppendAll([], nodes);
    bodyNode := TreeNode(FOR, [], newCondition, sub);
  }

  /** The summary node of a `while` loop. */
  method WhileNode(child: Node, src: Bytes) returns (bodyNode: TreeNode)
    requires WhileOk(child, src)
    ensures bodyNode == WhileSummary(child, src)
    decreases child, 2
  {
    var condition := ChildByFieldName(ChildByFieldName(child, "condition").value, "value").value;
    var newCondition := src[condition.startByte..condition.endByte];
    var body := ChildByFieldName(child, "body");
    assert body == Some(Body(child, src));
    var nodes := ExtractNodes(body.value, src);
    var sub := AppendAll([], nodes);
    bodyNode := TreeNode(WHILE, [], newCondition, sub);
  }

  /** The summary node of a `do`-`while` loop. */
  method DoWhileNode(child: Node, src: Bytes) returns (bodyNode: TreeNode)
    requires DoOk(child, src)
    ensures bodyNode == DoWhileSummary(child, src)
    decreases child, 2
  {
    var condition := ChildByFieldName(child, "condition").value;
    var newCondition := src[condition.startByte..condition.endByte];
    var body := ChildByFieldName(child, "body");
    assert body == Some(Body(child, src));
    var nodes := ExtractNodes(body.value, src);
    var sub := AppendAll([], nodes);
    bodyNode := TreeNode(DOWHILE, [], newCondition, sub);
  }

  /** The summary node of an `if`: the consequence tagged "true", then the alternative tagged "false". */
  method IfNode(child: Node, src: Bytes) returns (bodyNode: TreeNode)
    requires IfOk(child, src)
    ensures bodyNode == IfSummary(child, src)
    decreases child, 2
  {
    var condition := ChildByFieldName(ChildByFieldName(child, "condition").value, "value").value;
    var conditionString := src[condition.startByte..condition.endByte];
    var nodes := ExtractNodes(child, src);
    var sub := AppendRetagged([], nodes, TrueTag);
    var alternative := ChildByFieldName(child, "alternative");
    if alternative.Some? {
      var altNodes := ExtractNodes(alternative.value, src);
      sub := AppendRetagged(sub, altNodes, FalseTag);
    }
    bodyNode := TreeNode(IF, conditionString, [], sub);
  }

  /** The summary node of a `case` label; a label without a value is the default case. */
  method CaseNode(child: Node, src: Bytes) returns (bodyNode: TreeNode)
    requires CaseOk(child, src)
    ensures bodyNode == CaseSummary(child, src)
    decreases child, 2
  {
    var condition := ChildByFieldName(child, "value");
    var conditionString := DefaultTag;
    if condition.Some? {
      conditionString := src[condition.value.startByte..condition.value.endByte];
    }
    var nodes := ExtractNodes(child, src);
    var sub := AppendAll([], nodes);
    bodyNode := TreeNode(CASE, [], conditionString, sub);
  }

  /** The summary node of a `switch`; its cases come from the switch node's own children. */
  method SwitchNode(child: Node, src: Bytes) returns (bodyNode: TreeNode)
    requires SwitchOk(child, src)
    ensures bodyNode == SwitchSummary(child, src)
    decreases child, 2
  {
    var condition := ChildByFieldName(ChildByFieldName(child, "condition").value, "value").value;
    var conditionString := src[condition.startByte..condition.endByte];
    var nodes := ExtractNodes(child, src);
    var sub := AppendAll([], nodes);
    bodyNode := TreeNode(SWITCH, conditionString, [], sub);
  }

  /** Collects the function summaries of the tree under `node`, depth-first in pre-order. */
  method FindFunctionNodes(node: Node, src: Bytes) returns (functions: seq<TreeNode>)
    requires Locatable(node, src)
    ensures functions == FindFunctions(node, src)
    decreases node
  {
    functions := [];
    if IsFunctionNode(node.typ) {
      var functionName := ChildByFieldName(node, "declarator").value;
      var functionSignature := src[functionName.startByte..functionName.endByte];
      var nodes := ExtractNodes(ChildByFieldName(node, "body").value, src);
      functions := functions + [TreeNode(FUNCTION, functionSignature, [], nodes)];
    }
    ghost var own := functions;
    for i := 0 to |node.named|
      invariant functions == own + FindAll(node.named[..i], src)
    {
      var child := node.named[i];
      assert node.named[..i + 1][..i] == node.named[..i];
      var sub := FindFunctionNodes(child, src);
      functions := functions + sub;
    }
    assert node.named[..|node.named|] == node.named;
  }
}
