/**
 * What the builder and the locator promise, proved about their
 * specifications Extract and FindFunctions.
 */
module TreeProperties {
  import opened Treenode
  import opened Sitter
  import opened Server

  // ---------------------------------------------------------------------------
  // Blocks: every child contributes one contiguous block, in child order

  /** Summarising two runs of children one after the other is summarising their concatenation. */
  lemma {:induction false} ExtractAllAppend(a: seq<Node>, b: seq<Node>, src: Bytes)
    requires AllOk(a, src) && AllOk(b, src)
    ensures AllOk(a + b, src)
    ensures ExtractAll(a + b, src) == ExtractAll(a, src) + ExtractAll(b, src)
    decreases |b|
  {
    if b == [] {
      assert a + b == a;
    } else {
      var b' := b[..|b| - 1];
      assert (a + b)[..|a + b| - 1] == a + b';
      assert (a + b)[|a + b| - 1] == b[|b| - 1];
      ExtractAllAppend(a, b', src);
    }
  }

  /** A single child contributes exactly its own block. */
  lemma ExtractAllSingle(c: Node, src: Bytes)
    requires ChildOk(c, src)
    ensures AllOk([c], src) && ExtractAll([c], src) == Classify(c, src)
  {
    assert [c][..0] == [];
  }

  /**
   * The summary of `n` is the blocks of the children before child `i`, then
   * the block of child `i`, then the blocks of the children after it.
   */
  lemma ChildBlock(n: Node, i: nat, src: Bytes)
    requires Extractable(n, src) && i < |n.named|
    ensures AllOk(n.named[..i], src) && ChildOk(n.named[i], src) && AllOk(n.named[i + 1..], src)
    ensures Extract(n, src)
         == ExtractAll(n.named[..i], src) + Classify(n.named[i], src) + ExtractAll(n.named[i + 1..], src)
  {
    var s := n.named;
    assert s == s[..i] + [s[i]] + s[i + 1..];
    ExtractAllSingle(s[i], src);
    ExtractAllAppend(s[..i], [s[i]], src);
    ExtractAllAppend(s[..i] + [s[i]], s[i + 1..], src);
  }

  /**
   * How many summary nodes one child contributes: a compound statement its
   * own summary, every other recognised statement exactly one, and any other
   * type (a function definition nested in a body among them) none.
   */
  lemma ContributionSize(c: Node, src: Bytes)
    requires ChildOk(c, src)
    ensures c.typ == "compound_statement" ==> Classify(c, src) == Extract(c, src)
    ensures c.typ in Recognised && c.typ != "compound_statement" ==> |Classify(c, src)| == 1
    ensures c.typ !in Recognised ==> Classify(c, src) == []
    ensures IsFunctionNode(c.typ) ==> Classify(c, src) == []
  {
  }

  /** Removing an unrecognised child from a body does not change its summary. */
  lemma DropUnrecognised(n: Node, i: nat, src: Bytes)
    requires Extractable(n, src) && i < |n.named| && n.named[i].typ !in Recognised
    ensures Extractable(n.(named := n.named[..i] + n.named[i + 1..]), src)
    ensures Extract(n.(named := n.named[..i] + n.named[i + 1..]), src) == Extract(n, src)
  {
    ChildBlock(n, i, src);
    ContributionSize(n.named[i], src);
    ExtractAllAppend(n.named[..i], n.named[i + 1..], src);
  }

  /** Replacing a nested compound statement by its own children does not change the summary. */
  lemma FlattenCompound(n: Node, i: nat, src: Bytes)
    requires Extractable(n, src) && i < |n.named| && n.named[i].typ == "compound_statement"
    ensures Extractable(n.(named := n.named[..i] + n.named[i].named + n.named[i + 1..]), src)
    ensures Extract(n.(named := n.named[..i] + n.named[i].named + n.named[i + 1..]), src) == Extract(n, src)
  {
    var c := n.named[i];
    ChildBlock(n, i, src);
    ContributionSize(c, src);
    ExtractAllAppend(n.named[..i], c.named, src);
    ExtractAllAppend(n.named[..i] + c.named, n.named[i + 1..], src);
  }

  /**
   * Children none of which is recognised summarise to nothing: a loop whose
   * body is a single statement without braces, whose own children are
   * expressions, gets no children.
   */
  lemma {:induction false} NothingRecognised(s: seq<Node>, src: Bytes)
    requires AllOk(s, src) && forall i | 0 <= i < |s| :: s[i].typ !in Recognised
    ensures ExtractAll(s, src) == []
    decreases |s|
  {
    if s != [] {
      NothingRecognised(s[..|s| - 1], src);
      ContributionSize(s[|s| - 1], src);
    }
  }

  // ---------------------------------------------------------------------------
  // The classification table

  /** The summary node of each recognised statement, in terms of its fields and the source bytes. */
  lemma ClassificationTable(c: Node, src: Bytes)
    requires ChildOk(c, src)
    ensures c.typ in {"return_statement", "expression_statement", "declaration"} ==>
      Classify(c, src) == [TreeNode(INSTRUCTION, src[c.startByte..c.endByte], [], [])]
    ensures c.typ == "for_statement" ==>
      ForOk(c, src) &&
      var init := ChildByFieldName(c, "initializer").value;
      var upd := ChildByFieldName(c, "update");
      var last := if upd.Some? then upd.value else ChildByFieldName(c, "condition").value;
      Classify(c, src) == [TreeNode(FOR, [], src[init.startByte..last.endByte], Extract(Body(c, src), src))]
    ensures c.typ == "while_statement" ==>
      WhileOk(c, src) &&
      var v := ConditionValue(c, src);
      Classify(c, src) == [TreeNode(WHILE, [], src[v.startByte..v.endByte], Extract(Body(c, src), src))]
    ensures c.typ == "do_statement" ==>
      DoOk(c, src) &&
      var cond := ChildByFieldName(c, "condition").value;
      Classify(c, src) == [TreeNode(DOWHILE, [], src[cond.startByte..cond.endByte], Extract(Body(c, src), src))]
    ensures c.typ == "switch_statement" ==>
      SwitchOk(c, src) &&
      var v := ConditionValue(c, src);
      Classify(c, src) == [TreeNode(SWITCH, src[v.startByte..v.endByte], [], Extract(c, src))]
    ensures c.typ == "case_statement" ==>
      CaseOk(c, src) &&
      var value := ChildByFieldName(c, "value");
      Classify(c, src) == [TreeNode(CASE, [], if value.Some? then src[value.value.startByte..value.value.endByte]
                                              else DefaultTag, Extract(c, src))]
  {
  }

  /**
   * An `if` becomes one node: the test text, the consequence's summaries with
   * their condition overwritten to "true", then the alternative's with it
   * overwritten to "false"; nothing else about them changes.
   */
  lemma IfBranchTags(c: Node, src: Bytes)
    requires c.typ == "if_statement" && ChildOk(c, src)
    ensures IfOk(c, src) && |Classify(c, src)| == 1
    ensures var t := Classify(c, src)[0];
      var v := ConditionValue(c, src);
      var yes := Extract(c, src);
      var alt := ChildByFieldName(c, "alternative");
      var no := if alt.Some? then Extract(alt.value, src) else [];
      && t.typ == IF && t.data == src[v.startByte..v.endByte] && t.condition == []
      && |t.nodes| == |yes| + |no|
      && (forall j | 0 <= j < |yes| :: t.nodes[j] == yes[j].(condition := TrueTag))
      && (forall j | 0 <= j < |no| :: t.nodes[|yes| + j] == no[j].(condition := FalseTag))
  {
  }

  // ---------------------------------------------------------------------------
  // The shape of every summary node

  /** The kinds the builder emits: neither `function` nor `try`. */
  const ControlKinds: set<string> := {IF, SWITCH, CASE, FOR, WHILE, DOWHILE, INSTRUCTION}

  /** Kinds that keep their header in the condition and leave the data empty. */
  const HeaderKinds: set<string> := {FOR, WHILE, DOWHILE, CASE}

  /** Kinds that carry their text in the data and leave the condition to an enclosing `if`. */
  const DataKinds: set<string> := {INSTRUCTION, IF, SWITCH}

  /**
   * A summary tree whose every node has a control kind and the texts its kind
   * and its parent imply: every child of an `if` node carries a branch tag in
   * its condition, of whatever kind it is; elsewhere an instruction, `if` or
   * `switch` node has an empty condition.
   */
  predicate Shaped(t: TreeNode, underIf: bool)
    decreases t
  {
    && t.typ in ControlKinds
    && (t.typ in HeaderKinds ==> t.data == [])
    && (underIf ==> t.condition == TrueTag || t.condition == FalseTag)
    && (!underIf && t.typ in DataKinds ==> t.condition == [])
    && (t.typ == INSTRUCTION ==> t.nodes == [])
    && forall k | 0 <= k < |t.nodes| :: Shaped(t.nodes[k], t.typ == IF)
  }

  /** `x` is the text of some byte range of the source. */
  ghost predicate IsSlice(x: Bytes, src: Bytes) {
    exists a: nat, b: nat | a <= b <= |src| :: x == src[a..b]
  }

  /** Every data text of the tree is source text; every condition is source text or a fixed tag. */
  ghost predicate FromSource(t: TreeNode, src: Bytes)
    decreases t
  {
    && IsSlice(t.data, src)
    && (IsSlice(t.condition, src) || t.condition == TrueTag || t.condition == FalseTag || t.condition == DefaultTag)
    && forall k | 0 <= k < |t.nodes| :: FromSource(t.nodes[k], src)
  }

  /** A list of summaries that no `if` has tagged, shaped and from the source at every depth. */
  ghost predicate GoodSummary(ts: seq<TreeNode>, src: Bytes) {
    forall k | 0 <= k < |ts| :: Shaped(ts[k], false) && FromSource(ts[k], src)
  }

  lemma EmptyIsSlice(src: Bytes)
    ensures IsSlice([], src)
  {
    assert src[0..0] == [];
  }

  lemma TextIsSlice(n: Node, src: Bytes)
    requires SpanIn(n, |src|)
    ensures IsSlice(Text(n, src), src)
  {
    assert Text(n, src) == src[n.startByte..n.endByte];
  }

  /** Writing a branch tag keeps a shaped tree shaped and its texts from the source. */
  lemma RetagGood(ts: seq<TreeNode>, tag: Bytes, src: Bytes)
    requires GoodSummary(ts, src) && (tag == TrueTag || tag == FalseTag)
    ensures forall k | 0 <= k < |Retag(ts, tag)| :: Shaped(Retag(ts, tag)[k], true) && FromSource(Retag(ts, tag)[k], src)
  {
  }

  /**
   * Every summary node the builder emits, at any depth, is Shaped and
   * FromSource; at the top level no node carries a branch tag.
   */
  lemma {:induction false} ExtractGood(n: Node, src: Bytes)
    requires Extractable(n, src)
    ensures GoodSummary(Extract(n, src), src)
    decreases n, 1
  {
    ExtractAllGood(n.named, src);
  }

  lemma {:induction false} ExtractAllGood(s: seq<Node>, src: Bytes)
    requires AllOk(s, src)
    ensures GoodSummary(ExtractAll(s, src), src)
    decreases s, 0
  {
    if s != [] {
      ExtractAllGood(s[..|s| - 1], src);
      ClassifyGood(s[|s| - 1], src);
    }
  }

  lemma {:induction false} ClassifyGood(c: Node, src: Bytes)
    requires ChildOk(c, src)
    ensures GoodSummary(Classify(c, src), src)
    decreases c, 3
  {
    EmptyIsSlice(src);
    match c.typ
    case "compound_statement" => ExtractGood(c, src);
    case "return_statement" => TextIsSlice(c, src);
    case "expression_statement" => TextIsSlice(c, src);
    case "declaration" => TextIsSlice(c, src);
    case "for_statement" =>
      ExtractGood(Body(c, src), src);
      var init := ChildByFieldName(c, "initializer").value;
      var upd := ChildByFieldName(c, "update");
      var last := if upd.Some? then upd.value else ChildByFieldName(c, "condition").value;
      assert ForHeader(c, src) == src[init.startByte..last.endByte];
      SummaryGood(ForSummary(c, src), src);
    case "while_statement" =>
      ExtractGood(Body(c, src), src);
      TextIsSlice(ConditionValue(c, src), src);
      SummaryGood(WhileSummary(c, src), src);
    case "do_statement" =>
      ExtractGood(Body(c, src), src);
      TextIsSlice(ChildByFieldName(c, "condition").value, src);
      SummaryGood(DoWhileSummary(c, src), src);
    case "if_statement" =>
      ExtractGood(c, src);
      RetagGood(Extract(c, src), TrueTag, src);
      var alt := ChildByFieldName(c, "alternative");
      if alt.Some? {
        ExtractGood(alt.value, src);
        RetagGood(Extract(alt.value, src), FalseTag, src);
      }
      TextIsSlice(ConditionValue(c, src), src);
      SummaryGood(IfSummary(c, src), src);
    case "case_statement" =>
      ExtractGood(c, src);
      var value := ChildByFieldName(c, "value");
      if value.Some? {
        TextIsSlice(value.value, src);
      }
      SummaryGood(CaseSummary(c, src), src);
    case "switch_statement" =>
      ExtractGood(c, src);
      TextIsSlice(ConditionValue(c, src), src);
      SummaryGood(SwitchSummary(c, src), src);
    case _ =>
  }

  /** A node whose own fields are good and whose children are all good is good. */
  lemma SummaryGood(t: TreeNode, src: Bytes)
    requires t.typ in ControlKinds
    requires t.typ in HeaderKinds ==> t.data == []
    requires t.typ in DataKinds ==> t.condition == []
    requires t.typ == INSTRUCTION ==> t.nodes == []
    requires IsSlice(t.data, src)
    requires IsSlice(t.condition, src) || t.condition == DefaultTag
    requires forall k | 0 <= k < |t.nodes| :: Shaped(t.nodes[k], t.typ == IF) && FromSource(t.nodes[k], src)
    ensures GoodSummary([t], src)
  {
  }

  // ---------------------------------------------------------------------------
  // The locator: one flat entry per function node, in pre-order

  /** Every node of the tree under `n`, depth-first in pre-order. */
  function PreOrder(n: Node): (ns: seq<Node>)
    decreases n, 1
  {
    [n] + PreOrderAll(n.named)
  }

  function PreOrderAll(s: seq<Node>): (ns: seq<Node>)
    decreases s, 0
  {
    if s == [] then [] else PreOrderAll(s[..|s| - 1]) + PreOrder(s[|s| - 1])
  }

  /** The function nodes among `s`, in order. */
  function FunctionNodes(s: seq<Node>): (fs: seq<Node>) {
    if s == [] then []
    else FunctionNodes(s[..|s| - 1]) + (if IsFunctionNode(s[|s| - 1].typ) then [s[|s| - 1]] else [])
  }

  lemma {:induction false} FunctionNodesAppend(a: seq<Node>, b: seq<Node>)
    ensures FunctionNodes(a + b) == FunctionNodes(a) + FunctionNodes(b)
    decreases |b|
  {
    if b == [] {
      assert a + b == a;
    } else {
      var b' := b[..|b| - 1];
      assert (a + b)[..|a + b| - 1] == a + b';
      assert (a + b)[|a + b| - 1] == b[|b| - 1];
      FunctionNodesAppend(a, b');
    }
  }

  /** `fs` is the function summaries of the function nodes `ns`, one for one. */
  predicate EntriesOf(fs: seq<TreeNode>, ns: seq<Node>, src: Bytes) {
    |fs| == |ns| && forall k | 0 <= k < |ns| :: FunctionOk(ns[k], src) && fs[k] == FunctionEntry(ns[k], src)
  }

  lemma EntriesAppend(fa: seq<TreeNode>, na: seq<Node>, fb: seq<TreeNode>, nb: seq<Node>, src: Bytes)
    requires EntriesOf(fa, na, src) && EntriesOf(fb, nb, src)
    ensures EntriesOf(fa + fb, na + nb, src)
  {
    forall k | 0 <= k < |na + nb|
      ensures FunctionOk((na + nb)[k], src) && (fa + fb)[k] == FunctionEntry((na + nb)[k], src)
    {
      if k >= |na| {
        assert (na + nb)[k] == nb[k - |na|];
      }
    }
  }

  /**
   * The locator's output is exactly one `function` entry per function node of
   * the tree, in pre-order: so its length is the number of function nodes,
   * and a node's own entry precedes those of its descendants.
   */
  lemma {:induction false} FindFunctionsPreOrder(n: Node, src: Bytes)
    requires Locatable(n, src)
    ensures EntriesOf(FindFunctions(n, src), FunctionNodes(PreOrder(n)), src)
    decreases n, 1
  {
    FindAllPreOrder(n.named, src);
    FunctionNodesAppend([n], PreOrderAll(n.named));
    assert FunctionNodes([n]) == if IsFunctionNode(n.typ) then [n] else [];
    EntriesAppend(if IsFunctionNode(n.typ) then [FunctionEntry(n, src)] else [],
                  if IsFunctionNode(n.typ) then [n] else [],
                  FindAll(n.named, src), FunctionNodes(PreOrderAll(n.named)), src);
  }

  lemma {:induction false} FindAllPreOrder(s: seq<Node>, src: Bytes)
    requires LocatableAll(s, src)
    ensures EntriesOf(FindAll(s, src), FunctionNodes(PreOrderAll(s)), src)
    decreases s, 0
  {
    if s != [] {
      var init, last := s[..|s| - 1], s[|s| - 1];
      FindAllPreOrder(init, src);
      FindFunctionsPreOrder(last, src);
      FunctionNodesAppend(PreOrderAll(init), PreOrder(last));
      EntriesAppend(FindAll(init, src), FunctionNodes(PreOrderAll(init)),
                    FindFunctions(last, src), FunctionNodes(PreOrder(last)), src);
    }
  }

  /**
   * Every entry the locator returns is a `function` node whose data is its
   * declarator's text and whose children, at any depth, are control-structure
   * nodes: functions are never nested in the output.
   */
  lemma FindFunctionsFlat(n: Node, src: Bytes)
    requires Locatable(n, src)
    ensures forall k | 0 <= k < |FindFunctions(n, src)| ::
      var f := FindFunctions(n, src)[k];
      f.typ == FUNCTION && f.condition == [] && IsSlice(f.data, src) && GoodSummary(f.nodes, src)
  {
    FindFunctionsPreOrder(n, src);
    var fs := FunctionNodes(PreOrder(n));
    forall k | 0 <= k < |fs|
      ensures var f := FindFunctions(n, src)[k];
        f.typ == FUNCTION && f.condition == [] && IsSlice(f.data, src) && GoodSummary(f.nodes, src)
    {
      ExtractGood(Body(fs[k], src), src);
      TextIsSlice(ChildByFieldName(fs[k], "declarator").value, src);
    }
  }

  /** Only the two function node types start an entry, and neither is a statement the builder keeps. */
  lemma FunctionTypes(t: string)
    ensures IsFunctionNode(t) <==> t == "function_definition" || t == "function_declaration"
    ensures IsFunctionNode(t) ==> t !in Recognised
  {
  }
}
