/**
 * Worked inputs: small parse trees, laid out the way a C-family grammar
 * lays them out, and the summaries the builder produces for them.
 */
module Scenarios {
  import opened Treenode
  import opened Sitter
  import opened Server
  import opened TreeProperties

  /** A parse node with no children and no fields. */
  function Leaf(typ: string, startByte: nat, endByte: nat): (n: Node) {
    Node(typ, startByte, endByte, [], map[])
  }

  const IfElseText: string := "if (x > 0) { y = 1; } else { y = -1; }"

  const Then: Node := Node("expression_statement", 13, 19, [Leaf("assignment_expression", 13, 18)], map[])
  const Else: Node := Node("expression_statement", 29, 36, [Leaf("assignment_expression", 29, 35)], map[])
  const ThenBlock: Node := Node("compound_statement", 11, 21, [Then], map[])
  const ElseBlock: Node := Node("compound_statement", 27, 38, [Else], map[])
  const ElseClause: Node := Node("else_clause", 22, 38, [ElseBlock], map[])
  const Test: Node := Node("condition_clause", 3, 10, [Leaf("binary_expression", 4, 9)], map["value" := 0])
  const IfNode: Node :=
    Node("if_statement", 0, 38, [Test, ThenBlock, ElseClause], map["condition" := 0, "consequence" := 1, "alternative" := 2])

  /** The if statement of IfElseText, inside a function body. */
  const IfElseBody: Node := Node("compound_statement", 0, 38, [IfNode], map[])

  /**
   * One `if` node whose data is the test "x > 0" (bytes 4 to 9) and whose
   * children are the instructions "y = 1;" (bytes 13 to 19) tagged "true"
   * and "y = -1;" (bytes 29 to 36) tagged "false".
   */
  lemma IfElseScenario()
    ensures Extractable(IfElseBody, AsciiBytes(IfElseText))
    ensures var src := AsciiBytes(IfElseText);
      Extract(IfElseBody, src)
      == [TreeNode(IF, src[4..9], [], [
            TreeNode(INSTRUCTION, src[13..19], TrueTag, []),
            TreeNode(INSTRUCTION, src[29..36], FalseTag, [])])]
  {
    var src := AsciiBytes(IfElseText);
    var yes := TreeNode(INSTRUCTION, src[13..19], [], []);
    var no := TreeNode(INSTRUCTION, src[29..36], [], []);
    assert Classify(Then, src) == [yes];
    assert Classify(Else, src) == [no];
    ExtractAllSingle(Then, src);
    ExtractAllSingle(Else, src);
    assert Classify(ThenBlock, src) == [yes];
    ExtractAllSingle(ElseBlock, src);
    assert Classify(ElseClause, src) == [] && Classify(Test, src) == [];
    ExtractAllSingle(Test, src);
    ExtractAllAppend([Test], [ThenBlock], src);
    ExtractAllAppend([Test, ThenBlock], [ElseClause], src);
    assert [Test] + [ThenBlock] + [ElseClause] == IfNode.named;
    assert Extract(IfNode, src) == [yes];
    assert Extract(ElseClause, src) == [no];
    assert ChildByFieldName(IfNode, "condition") == Some(Test);
    assert ChildByFieldName(Test, "value") == Some(Leaf("binary_expression", 4, 9));
    assert ChildByFieldName(IfNode, "alternative") == Some(ElseClause);
    assert IfOk(IfNode, src);
    assert Classify(IfNode, src) == [IfSummary(IfNode, src)];
    assert ConditionValue(IfNode, src) == Leaf("binary_expression", 4, 9);
    assert Retag([yes], TrueTag) == [yes.(condition := TrueTag)];
    assert Retag([no], FalseTag) == [no.(condition := FalseTag)];
    assert IfSummary(IfNode, src) == TreeNode(IF, src[4..9], [], [yes.(condition := TrueTag), no.(condition := FalseTag)]);
    assert Extract(IfElseBody, src) == [IfSummary(IfNode, src)];
    ExtractAllSingle(IfNode, src);
  }

  const LoopInIfText: string := "if (c) for (i = 0; i < n; i++) { x++; }"

  const Step: Node := Node("expression_statement", 33, 37, [Leaf("update_expression", 33, 36)], map[])
  const LoopBlock: Node := Node("compound_statement", 31, 39, [Step], map[])
  const Loop: Node :=
    Node("for_statement", 7, 39,
         [Leaf("assignment_expression", 12, 17), Leaf("binary_expression", 19, 24),
          Leaf("update_expression", 26, 29), LoopBlock],
         map["initializer" := 0, "condition" := 1, "update" := 2, "body" := 3])
  const Guard: Node := Node("condition_clause", 3, 6, [Leaf("identifier", 4, 5)], map["value" := 0])
  const GuardedLoop: Node := Node("if_statement", 0, 39, [Guard, Loop], map["condition" := 0, "consequence" := 1])

  /** The if statement of LoopInIfText, inside a function body. */
  const LoopInIfBody: Node := Node("compound_statement", 0, 39, [GuardedLoop], map[])

  /**
   * A loop that is the direct consequence of an `if` loses its header: on
   * its own its condition would be "i = 0; i < n; i++" (bytes 12 to 29), but
   * the `if` overwrites it with "true".
   */
  lemma LoopHeaderOverwritten()
    ensures Extractable(LoopInIfBody, AsciiBytes(LoopInIfText))
    ensures ChildOk(Loop, AsciiBytes(LoopInIfText))
    ensures var src := AsciiBytes(LoopInIfText);
      && Classify(Loop, src) == [TreeNode(FOR, [], src[12..29], [TreeNode(INSTRUCTION, src[33..37], [], [])])]
      && Extract(LoopInIfBody, src)
         == [TreeNode(IF, src[4..5], [], [TreeNode(FOR, [], TrueTag, [TreeNode(INSTRUCTION, src[33..37], [], [])])])]
  {
    var src := AsciiBytes(LoopInIfText);
    var step := TreeNode(INSTRUCTION, src[33..37], [], []);
    assert Classify(Step, src) == [step];
    ExtractAllSingle(Step, src);
    assert ChildByFieldName(Loop, "body") == Some(LoopBlock);
    assert ChildByFieldName(Loop, "initializer") == Some(Leaf("assignment_expression", 12, 17));
    assert ChildByFieldName(Loop, "update") == Some(Leaf("update_expression", 26, 29));
    assert ChildByFieldName(Loop, "condition") == Some(Leaf("binary_expression", 19, 24));
    assert ForOk(Loop, src);
    var loop := TreeNode(FOR, [], src[12..29], [step]);
    assert ForSummary(Loop, src) == loop;
    assert Classify(Loop, src) == [loop];
    assert Classify(Guard, src) == [];
    ExtractAllSingle(Guard, src);
    ExtractAllAppend([Guard], [Loop], src);
    assert [Guard] + [Loop] == GuardedLoop.named;
    assert Extract(GuardedLoop, src) == [loop];
    assert ChildByFieldName(GuardedLoop, "condition") == Some(Guard);
    assert ChildByFieldName(Guard, "value") == Some(Leaf("identifier", 4, 5));
    assert ChildByFieldName(GuardedLoop, "alternative") == None;
    assert IfOk(GuardedLoop, src);
    assert Classify(GuardedLoop, src) == [IfSummary(GuardedLoop, src)];
    assert Retag([loop], TrueTag) == [loop.(condition := TrueTag)];
    assert IfSummary(GuardedLoop, src) == TreeNode(IF, src[4..5], [], [loop.(condition := TrueTag)]);
    ExtractAllSingle(GuardedLoop, src);
  }

  const SwitchText: string := "switch (v) { case 1: break; default: break; }"

  const CaseOne: Node :=
    Node("case_statement", 13, 27, [Leaf("number_literal", 18, 19), Leaf("break_statement", 21, 27)], map["value" := 0])
  const CaseDefault: Node := Node("case_statement", 28, 43, [Leaf("break_statement", 37, 43)], map[])
  const Cases: Node := Node("compound_statement", 11, 45, [CaseOne, CaseDefault], map[])
  const Selector: Node := Node("condition_clause", 7, 10, [Leaf("identifier", 8, 9)], map["value" := 0])
  const Dispatch: Node := Node("switch_statement", 0, 45, [Selector, Cases], map["condition" := 0, "body" := 1])

  /** The switch statement of SwitchText, inside a function body. */
  const SwitchBody: Node := Node("compound_statement", 0, 45, [Dispatch], map[])

  /**
   * One `switch` node with the selector "v" (bytes 8 to 9) and two `case`
   * nodes, "1" (bytes 18 to 19) and "default"; `break` is not a recognised
   * statement, so neither case has children.
   */
  lemma SwitchScenario()
    ensures Extractable(SwitchBody, AsciiBytes(SwitchText))
    ensures var src := AsciiBytes(SwitchText);
      Extract(SwitchBody, src)
      == [TreeNode(SWITCH, src[8..9], [], [TreeNode(CASE, [], src[18..19], []), TreeNode(CASE, [], DefaultTag, [])])]
  {
    var src := AsciiBytes(SwitchText);
    var one, other := CaseOne.named[0], CaseOne.named[1];
    assert Classify(one, src) == [] && Classify(other, src) == [];
    ExtractAllSingle(one, src);
    ExtractAllAppend([one], [other], src);
    assert [one] + [other] == CaseOne.named;
    assert Extract(CaseOne, src) == [];
    assert ChildByFieldName(CaseOne, "value") == Some(one);
    var first := TreeNode(CASE, [], src[18..19], []);
    assert Classify(CaseOne, src) == [first];
    ExtractAllSingle(CaseDefault.named[0], src);
    assert ChildByFieldName(CaseDefault, "value") == None;
    var second := TreeNode(CASE, [], DefaultTag, []);
    assert Classify(CaseDefault, src) == [second];
    ExtractAllSingle(CaseOne, src);
    ExtractAllAppend([CaseOne], [CaseDefault], src);
    assert [CaseOne] + [CaseDefault] == Cases.named;
    assert Extract(Cases, src) == [first, second];
    assert Classify(Selector, src) == [];
    ExtractAllSingle(Selector, src);
    ExtractAllAppend([Selector], [Cases], src);
    assert [Selector] + [Cases] == Dispatch.named;
    assert Extract(Dispatch, src) == [first, second];
    assert ChildByFieldName(Dispatch, "condition") == Some(Selector);
    assert ChildByFieldName(Selector, "value") == Some(Leaf("identifier", 8, 9));
    assert SwitchOk(Dispatch, src);
    assert Classify(Dispatch, src) == [TreeNode(SWITCH, src[8..9], [], [first, second])];
    ExtractAllSingle(Dispatch, src);
  }

  const UnbracedText: string := "while (a) if (b) { x = 1; }"

  const Assign: Node := Node("expression_statement", 19, 25, [Leaf("assignment_expression", 19, 24)], map[])
  const Inner: Node := Node("compound_statement", 17, 27, [Assign], map[])
  const InnerTest: Node := Node("condition_clause", 13, 16, [Leaf("identifier", 14, 15)], map["value" := 0])
  const LoopBody: Node := Node("if_statement", 10, 27, [InnerTest, Inner], map["condition" := 0, "consequence" := 1])
  const LoopTest: Node := Node("condition_clause", 6, 9, [Leaf("identifier", 7, 8)], map["value" := 0])
  const Unbraced: Node := Node("while_statement", 0, 27, [LoopTest, LoopBody], map["condition" := 0, "body" := 1])

  /** The while statement of UnbracedText, inside a function body. */
  const UnbracedBody: Node := Node("compound_statement", 0, 27, [Unbraced], map[])

  /**
   * A loop summarises the children of its body node, not the body node
   * itself: when the body is an `if` without braces around it, the `if`
   * disappears and its block's statements are spliced into the loop
   * untagged. Here the `while` gets the one instruction "x = 1;" (bytes 19
   * to 25) with an empty condition, and no `if` node.
   */
  lemma UnbracedLoopBody()
    ensures Extractable(UnbracedBody, AsciiBytes(UnbracedText))
    ensures var src := AsciiBytes(UnbracedText);
      Extract(UnbracedBody, src)
      == [TreeNode(WHILE, [], src[7..8], [TreeNode(INSTRUCTION, src[19..25], [], [])])]
  {
    var src := AsciiBytes(UnbracedText);
    var assign := TreeNode(INSTRUCTION, src[19..25], [], []);
    assert Classify(Assign, src) == [assign];
    ExtractAllSingle(Assign, src);
    assert Classify(Inner, src) == [assign];
    assert Classify(InnerTest, src) == [];
    ExtractAllSingle(InnerTest, src);
    ExtractAllAppend([InnerTest], [Inner], src);
    assert [InnerTest] + [Inner] == LoopBody.named;
    assert Extract(LoopBody, src) == [assign];
    assert ChildByFieldName(Unbraced, "condition") == Some(LoopTest);
    assert ChildByFieldName(LoopTest, "value") == Some(Leaf("identifier", 7, 8));
    assert ChildByFieldName(Unbraced, "body") == Some(LoopBody);
    assert WhileOk(Unbraced, src);
    assert WhileSummary(Unbraced, src) == TreeNode(WHILE, [], src[7..8], [assign]);
    assert Classify(Unbraced, src) == [WhileSummary(Unbraced, src)];
    ExtractAllSingle(Unbraced, src);
  }

  const AddText: string := "int add(int a, int b) { return a + b; }"

  const Result: Node := Node("return_statement", 24, 37, [Leaf("binary_expression", 31, 36)], map[])
  const AddBody: Node := Node("compound_statement", 22, 39, [Result], map[])
  const Declarator: Node :=
    Node("function_declarator", 4, 21, [Leaf("identifier", 4, 7), Leaf("parameter_list", 7, 21)],
         map["declarator" := 0, "parameters" := 1])
  const Add: Node :=
    Node("function_definition", 0, 39, [Leaf("primitive_type", 0, 3), Declarator, AddBody],
         map["type" := 0, "declarator" := 1, "body" := 2])

  /** The parse tree of AddText. */
  const Unit: Node := Node("translation_unit", 0, 39, [Add], map[])

  /**
   * The locator finds the one function: an entry whose data is the signature
   * "add(int a, int b)" (bytes 4 to 21) and whose only child is the
   * instruction "return a + b;" (bytes 24 to 37).
   */
  lemma FunctionScenario()
    ensures Locatable(Unit, AsciiBytes(AddText))
    ensures var src := AsciiBytes(AddText);
      FindFunctions(Unit, src)
      == [TreeNode(FUNCTION, src[4..21], [], [TreeNode(INSTRUCTION, src[24..37], [], [])])]
  {
    var src := AsciiBytes(AddText);
    var result := TreeNode(INSTRUCTION, src[24..37], [], []);
    assert Classify(Result, src) == [result];
    ExtractAllSingle(Result, src);
    assert Extract(AddBody, src) == [result];
    assert ChildByFieldName(Add, "declarator") == Some(Declarator);
    assert ChildByFieldName(Add, "body") == Some(AddBody);
    assert FunctionOk(Add, src);
    assert FunctionEntry(Add, src) == TreeNode(FUNCTION, src[4..21], [], [result]);
    LeavesFindNothing(Result, src);
    LeavesFindNothing(Declarator, src);
    NoEntriesAll([Leaf("primitive_type", 0, 3)], src);
    assert FindAll(AddBody.named, src) == [] by {
      assert AddBody.named[..0] == [];
    }
    assert FindAll([Leaf("primitive_type", 0, 3), Declarator], src) == [];
    assert FindAll(Add.named, src) == [] by {
      assert Add.named[..2] == [Leaf("primitive_type", 0, 3), Declarator];
    }
    assert FindFunctions(Add, src) == [FunctionEntry(Add, src)];
    assert FindAll(Unit.named, src) == FindFunctions(Add, src) by {
      assert Unit.named[..0] == [];
    }
  }

  /** A node none of whose children has children finds nothing when it is not a function node. */
  lemma LeavesFindNothing(n: Node, src: Bytes)
    requires !IsFunctionNode(n.typ)
    requires forall k | 0 <= k < |n.named| :: n.named[k].named == [] && !IsFunctionNode(n.named[k].typ)
    ensures Locatable(n, src) && FindFunctions(n, src) == []
  {
    NoEntriesAll(n.named, src);
  }

  lemma {:induction false} NoEntriesAll(s: seq<Node>, src: Bytes)
    requires forall k | 0 <= k < |s| :: s[k].named == [] && !IsFunctionNode(s[k].typ)
    ensures LocatableAll(s, src) && FindAll(s, src) == []
    decreases |s|
  {
    if s != [] {
      NoEntriesAll(s[..|s| - 1], src);
      assert FindFunctions(s[|s| - 1], src) == [];
    }
  }
}
