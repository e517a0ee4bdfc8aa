# Control-structure trees from parse trees

This project models the core of a small service. The service takes source
text, lets an external incremental parser (tree-sitter) build its parse
tree, and reshapes that tree into a compact *control-structure tree*. The
core has two parts:

- The **function locator** (`findFunctionNodes`) walks the whole parse
  tree depth-first, in pre-order. Every node of type `function_definition`
  or `function_declaration` becomes one flat `function` summary. Its data
  is the declarator's source text. Its children are the builder's summary
  of the `body` field.
- The **control tree builder** (`extractNodes`) classifies each named child
  of a node with a closed table:
  - A nested `compound_statement` is flattened into its parent's list.
  - Return, expression and declaration statements become `instruction`
    leaves that hold their whole text.
  - `for`, `while` and `do` loops keep their header text in the condition
    and summarise their `body`.
  - `if` summarises its own children with the condition overwritten to
    "true". It then summarises its `alternative` with "false".
  - `switch` and `case` summarise their own children. A case without a
    `value` is tagged "default".
  - Every other type is dropped.

The output record (`treenode/node.go`) is the datatype `Treenode.TreeNode`.
It has a kind tag, a data text, a condition text and ordered children.

Files:

- `treenode.dfy` (module `Treenode`): bytes, the nine kind tags and
  `TreeNode`.
- `sitter.dfy` (module `Sitter`): the parse node the parser supplies. A
  node has a type tag, a byte range, its named children in order, and a
  map from field label to the index of a named child.
- `tree.dfy` (module `Server`): the builder and the locator. Each has a
  pure recursive specification (`Extract`, `Classify`, `FindFunctions`).
  Each also has the service's own loops (`ExtractNodes`,
  `FindFunctionNodes` and their helpers). Every method is proved equal to
  its specification.
- `properties.dfy` (module `TreeProperties`): the properties of the
  specifications.
- `scenarios.dfy` (module `Scenarios`): five small parse trees and the
  summaries proved for them.

Modelling decisions:

- Source text is a sequence of bytes (`Treenode.byte`).
  - Go's `string(sourceCode[a:b])` is the byte slice `src[a..b]`.
  - The data and condition texts are byte sequences.
  - The literals "true", "false" and "default" are converted with
    `AsciiBytes`.
  - Kind tags and parse-node type tags are fixed ASCII names. They stay
    Dafny strings.
- The service dereferences fields without checking them. It also slices
  the source without checking bounds. A missing field or a bad span
  therefore makes it panic.
  - The model instead requires that every field the service dereferences
    exists, and that every slice lies within the source text. The
    predicates are `Server.ChildOk`, `Server.Extractable` and
    `Server.Locatable`.
  - For example, a `for` needs `initializer` and `condition`. The header
    slice it computes must lie in the source, and so must the second slice
    when an `update` is present.
  - `if`, `while` and `switch` need `condition.value`.
  - Every function node needs `declarator` and `body`.
  - A slice is bounded by the length of the source text. The section on
    what is left out explains the one difference from Go's rule.
- A `do` loop's condition is the span of the whole `condition` node,
  parentheses included (server/tree.go:134-135). It is not the unwrapped
  value that `while` uses.
- The alternative branch of an `if` is tagged "false"
  (server/tree.go:170).
- Each `case` of the builder's switch has two parts in the model:
  - a spec function (`ForSummary`, `IfSummary`, ...);
  - a method (`ForNode`, `IfNode`, ...) that builds that statement's
    summary node the way the case body does.

  `ExtractNodes` appends these nodes in its loop. The `for j` copy loops
  are `AppendAll`. The `if` loops that overwrite `nodes[j].Condition` and
  then append are `AppendRetagged`, which updates its local copy of the
  slice in place, as the source does.

Three consequences of the code that the lemmas make visible:

- A loop summarises the *children* of its `body` node, not the body node
  itself. Suppose the body is a single statement without braces, and its
  own children are expressions (an expression, return or declaration
  statement). Then the loop gets no children
  (`TreeProperties.NothingRecognised`).
- Suppose instead that the unbraced body is itself a statement with
  recognised statements inside it, such as an `if`. Then that statement's
  own node disappears, and its recognised children are spliced into the
  loop untagged. For `while (a) if (b) { x = 1; }` the `while` gets the one
  instruction `x = 1;` and no `if` node (`Scenarios.UnbracedLoopBody`).
- A loop that is a direct child of an `if` loses its header text. The `if`
  overwrites it with "true" or "false"
  (`Scenarios.LoopHeaderOverwritten`).

## Model

| member | source | states |
|---|---|---|
| `Treenode.KindsDistinct` | treenode/node.go:3-13 | there are nine kind tags and they are pairwise different strings |
| `TreeProperties.FunctionTypes` | server/tree.go:225-227 | a type starts a function entry exactly when it is `function_definition` or `function_declaration`; neither type is in the builder's table, so a function nested in a body is not summarised there |
| `Server.ExtractNodes` | server/tree.go:76-223 | the index loop over the named children returns exactly `Extract(node)`, the children's blocks in index order; it requires only that no field it dereferences is missing and no slice leaves the source |
| `Server.AppendAll` | server/tree.go:85-87 | copying `nodes` element by element onto `acc` yields `acc + nodes` |
| `Server.AppendRetagged` | server/tree.go:162-165 | overwriting each element's condition with the tag and then appending it yields `acc` followed by the retagged `nodes`, in order |
| `Server.ForNode` | server/tree.go:102-119 | builds the `for` summary of the specification: header from the initializer's start to the update's end, or to the condition's end when there is no update; children from the body |
| `Server.WhileNode` | server/tree.go:120-132 | builds the `while` summary: condition is the text of `condition.value`, children from the body |
| `Server.DoWhileNode` | server/tree.go:133-145 | builds the `doWhile` summary: condition is the text of the whole `condition` node, children from the body |
| `Server.IfNode` | server/tree.go:153-174 | builds the `if` summary: data is the text of `condition.value`; children are the if node's own summary tagged "true", then the alternative's tagged "false" when there is one |
| `Server.CaseNode` | server/tree.go:175-190 | builds the `case` summary: condition is the `value` text, or "default" when there is no `value`; children from the case node itself |
| `Server.SwitchNode` | server/tree.go:191-203 | builds the `switch` summary: data is the text of `condition.value`; children from the switch node itself |
| `Server.FindFunctionNodes` | server/tree.go:53-74 | the recursive walk with its append accumulator returns exactly `FindFunctions(node)`: the node's own entry first, then its children's entries in index order |
| `TreeProperties.ExtractAllAppend` | server/tree.go:79-220 | summarising two runs of children in sequence is concatenating their summaries |
| `TreeProperties.ChildBlock` | server/tree.go:79-220 | child `i` contributes one contiguous block of the summary, after the blocks of children `0..i-1` and before those of the later children |
| `TreeProperties.ContributionSize` | server/tree.go:81-219 | a compound statement contributes exactly its own summary, each other recognised statement exactly one node, any other type (function nodes included) none |
| `TreeProperties.DropUnrecognised` | server/tree.go:217-218 | deleting an unrecognised child leaves the summary unchanged, so dropping it does not disturb later siblings |
| `TreeProperties.FlattenCompound` | server/tree.go:82-87 | splicing a nested compound statement's children in its place leaves the summary unchanged |
| `TreeProperties.NothingRecognised` | server/tree.go:115-118 | children of which none is recognised summarise to the empty sequence |
| `TreeProperties.ClassificationTable` | server/tree.go:88-203 | the summary node each recognised statement yields, with its texts as exact byte ranges of the source |
| `TreeProperties.IfBranchTags` | server/tree.go:153-174 | an `if` yields one node; its children are the consequence's summaries with only the condition set to "true", then the alternative's with only the condition set to "false" |
| `TreeProperties.RetagGood` | server/tree.go:161-172 | writing "true" or "false" into the conditions of well-shaped untagged summaries makes them well-shaped children of an `if`, with their texts still taken from the source |
| `TreeProperties.ExtractGood` | server/tree.go:76-223 | at every depth a summary node has one of the seven control kinds, never `function` or `try`; loop and case nodes have empty data; every child of an `if` node, of whatever kind, has "true" or "false" as its condition; every other instruction, `if` and `switch` node has an empty condition; instructions have no children; every data text is a source slice; every condition is a source slice or "true", "false" or "default" |
| `TreeProperties.FindFunctionsPreOrder` | server/tree.go:53-74 | the locator returns one entry per function node of the tree, in pre-order, and no other entries; so its length is the number of function nodes, and each entry is that node's `function` summary |
| `TreeProperties.FindFunctionsFlat` | server/tree.go:55-63 | every entry has kind `function`, an empty condition and source text as data, and nothing below it has kind `function`: nested functions come out as siblings, never nested |
| `Scenarios.IfElseScenario` | server/tree.go:153-174 | `if (x > 0) { y = 1; } else { y = -1; }` yields one `if` node with the test text and two instructions tagged "true" and "false" |
| `Scenarios.LoopHeaderOverwritten` | server/tree.go:161-164 | a `for` loop that is the consequence of an `if` has the header text on its own, and "true" as its condition inside the `if` |
| `Scenarios.SwitchScenario` | server/tree.go:175-203 | `switch (v) { case 1: break; default: break; }` yields a `switch` node with cases "1" and "default" and no children, because `break` is dropped |
| `Scenarios.UnbracedLoopBody` | server/tree.go:120-132 | `while (a) if (b) { x = 1; }` yields a `while` node with condition "a" whose one child is the untagged instruction `x = 1;`: the unbraced `if` body disappears |
| `Scenarios.FunctionScenario` | server/tree.go:53-74 | for `int add(int a, int b) { return a + b; }` the locator returns one `function` entry with the signature `add(int a, int b)` whose one child is the instruction `return a + b;` |

## Left out

- `server/server.go`: HTTP routing, cross-origin policy, request logging, recovery and port binding. This is service plumbing.
- `generateTree` (server/tree.go:16-51): choosing the grammar by language name, reading the request body, running the parser and writing the JSON response. These are I/O and calls into the parser library. The model takes the parse tree as an input instead.
- The parser itself, and the node shapes of each grammar. The parse node is abstract. The scenario trees only imitate a C-family layout.
- Field lookup in the parser can also return anonymous children. In the model a field always names one of the node's named children. This keeps the recursion structural.
- The diagnostics printed by the builder (server/tree.go:83, 218). They do not affect the output.
- The panics on a missing field or an out-of-range slice. The model states these as preconditions instead.
- Out-of-range slices: Go bounds a slice of a byte slice by its capacity, not its length. The request body read at server/tree.go:36 may have capacity beyond its length. The model bounds every slice by the source length, so it rejects a span that ends between the two. A parser span never does.
- The `child != nil` test of the locator (server/tree.go:68) has no counterpart. A named child within the named-child count is never nil.
- The commented-out `try_statement` case (server/tree.go:204-216). It is not code. `TRY` is a declared tag, and `TreeProperties.ExtractGood` shows that it is never produced.
- Go's distinction between a nil slice and an empty slice of children. The model has only the empty sequence.
  - Instructions carry nil, which JSON shows as `null`. So does a summary with no recognised child.
  - Loop, if, case and switch nodes start from an empty slice, which JSON shows as `[]`.
- JSON field names (treenode/node.go:16-19). They are a wire format.
