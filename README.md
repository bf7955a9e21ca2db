# phi-debug: a verified model of the GIMPLE-to-text renderer

`phi-debug` is a GCC plugin pass. For every function it compiles, it writes a
textual report of the function's SSA form to standard output:

- the function's name;
- for each basic block, a header line `\tbb: (preds) -> (index) -> (succs)`;
- one line per statement, in order;
- a closing brace.

Expressions (GCC trees) are printed recursively. An SSA name whose
defining statement is a PHI is expanded in place as
`(name__vN = GIMPLE_PHI(arg, ...))`.

This project models the renderer of `src/phi-debug/phi-debug.cpp`, that is
`phi_debug_bb_id`, `phi_debug_tree`, `phi_debug_op`, the five
`phi_debug_on_gimple_*` statement printers, `phi_debug_on_unknown_stmt`,
`phi_debug_statements` and `phi_debug_function`. The modules are:

- `Gimple` (gimple.dfy): the part of GCC's IR the renderer reads, as
  datatypes. These are trees (`Expr`), tree codes used as operators (`Op`),
  statements (`Stmt`), basic blocks and the function. GCC's accessor macros
  become datatype fields. An SSA name carries its defining statement as a
  `DefStmt`, either a PHI with its argument trees or any other statement.
- `Text` (text.dfy): the decimal form `operator<<` gives an integer, with
  its parser and round-trip lemmas. It also has:
  - `", "`-joining;
  - the stream a loop leaves when it writes `x << ", "` per element;
  - `std::string::substr` and the `size_t` subtraction it is called with;
  - newline counting.
- `Render` (render.dfy): the text every routine writes, as pure functions of
  the IR (`TreeText`, `OpSymbol`, `AssignText`, ..., `FunctionText`). It
  also holds the lemmas that pin down the operator table.
- `PhiDebug` (phi_debug.dfy): the printing routines as imperative code. A
  `Printer` object holds the output stream `std::cout`, modelled as the
  string field `out`. Every method appends to it in the order the source
  writes. Each method is proved to append exactly the text the matching
  `Render` function specifies.
  - The edge-list loops of `phi_debug_bb_id` build a string stream and cut
    off its last two characters. They are proved to yield the proper
    `", "`-join.
  - The argument loops of the PHI and call cases carry the invariant that
    the output so far is the join of the arguments printed so far,
    followed by a separator while more remain.
- `Layout` (layout.dfy): the line structure of a report. Suppose no name or
  string constant contains a newline. Then every tree prints on one line
  and every statement prints exactly one line. A function's report then has
  one line per statement, two per block and three of frame.
- `Examples` (examples.dfy): concrete renderings of small IR fragments.

Some behaviours of the code may be surprising. The model keeps them as
written:

- A PHI-defined SSA name prints ` = GIMPLE_PHI(`, not ` = PHI(`.
- `TRUTH_NOT_EXPR` has no `break` and runs into the `LT_EXPR` case, so it
  prints `!<`.
- `phi_debug_on_gimple_cond` reads its operator through
  `gimple_assign_rhs_code`, which for a condition returns the statement's
  subcode, its comparison (in a GCC built without GIMPLE checking; with
  checking enabled the accessor aborts on a `GIMPLE_COND`). The model takes that code as the statement's
  `code` field.
- A block header starts with a tab.
- An assignment's body depends on `gimple_num_ops`:
  - 2 operands: `lhs = rhs1`, also when the right side is a unary
    operation such as `NEGATE_EXPR`, `BIT_NOT_EXPR` or a conversion, whose
    operator is not printed;
  - 3 operands: `lhs = rhs1 op rhs2`;
  - any other count: empty, which prints `{  }`.
- The edge lists of the block header are not corrupted for zero or one edge:
  - With no edges the stream is empty. `size() - 2` then wraps around in
    `size_t`, `substr` clamps the count, and the result is empty.
  - With one or more edges every index is followed by `", "`, so cutting
    the last two characters leaves the proper join.

  `Text.TrimmedSuffixedIsJoin` proves this for every list of edges.
- `TARGET_MEM_REF` labels its operand 2 (`TMR_INDEX` in GCC) `STEP:` and its
  operand 3 (`TMR_STEP`) `INDEX1:`. The model prints these labels as the
  source does, and names the datatype's fields after GCC's accessors.

## Model

The `Printer` methods are proved against the pure renderers of `Render`.
These are `TreeText` (lines 94-224), `OpSymbol` (lines 226-320), `StmtText`
(lines 426-450), `BlockIdText` (lines 66-92) and `FunctionText` (lines
456-469). What the renderings mean is stated by the lemmas in the rows
below.

| member | source | states |
|---|---|---|
| Text.NatStr | src/phi-debug/phi-debug.cpp:99 | an unsigned integer prints as a nonempty run of decimal digits, a single digit exactly when it is below ten, with no leading zero unless it is zero |
| Text.IntStr | src/phi-debug/phi-debug.cpp:74 | a block index prints with a leading `-` exactly when it is negative |
| Text.ParseNatStr | src/phi-debug/phi-debug.cpp:99 | reading back the printed digits gives the integer again |
| Text.ParseIntStr | src/phi-debug/phi-debug.cpp:74 | the printed form of a signed index is well formed and reads back to that index |
| Text.IntStrInjective | src/phi-debug/phi-debug.cpp:85 | distinct block indices print differently |
| Text.SizeSub | src/phi-debug/phi-debug.cpp:77 | `size() - 2` in `size_t`: the difference when the size is at least 2, wrapped modulo 2^64 otherwise |
| Text.Substr | src/phi-debug/phi-debug.cpp:77 | `substr(pos, count)` returns the characters from `pos` on, at most `count` of them |
| Text.TrimLast2 | src/phi-debug/phi-debug.cpp:76-77 | `s.substr(0, s.size() - 2)` drops the last two characters of a string of two or more, and returns a shorter string unchanged |
| Text.SuffixedIsJoinThenSep | src/phi-debug/phi-debug.cpp:72-76 | for a nonempty list, the stream of `x, ` writes is the join followed by one separator |
| Text.TrimmedSuffixedIsJoin | src/phi-debug/phi-debug.cpp:72-77 | cutting the last two characters of that stream gives the `", "`-join, also for zero and one element |
| Text.ListedIsJoin | src/phi-debug/phi-debug.cpp:204-209 | writing a separator after every element but the last yields the join |
| Text.JoinNoNewline | src/phi-debug/phi-debug.cpp:204-209 | a join of newline-free texts with a newline-free separator is newline-free |
| Text.NewlineCountAppend | src/phi-debug/phi-debug.cpp:458-467 | the lines of two consecutive writes add up |
| Text.IsLineCount | src/phi-debug/phi-debug.cpp:341 | a text ending in its only newline is one line |
| PhiDebug.EdgeList | src/phi-debug/phi-debug.cpp:72-77 | the loop over the edges and the truncation of its stream produce the `", "`-join of the indices |
| PhiDebug.Printer.BlockId | src/phi-debug/phi-debug.cpp:66-92 | the header appended is `\tbb: (` preds `) -> (` index `) -> (` succs `)`, the edge lists joined |
| Render.CString | src/phi-debug/phi-debug.cpp:115-116 | a string constant prints as the prefix of its bytes before the first NUL, with no NUL in it |
| Render.TreeTextNonEmpty | src/phi-debug/phi-debug.cpp:94-224 | every tree prints nonempty text, unless it is a field, variable or constant declaration whose name is the empty identifier |
| PhiDebug.Printer.Tree | src/phi-debug/phi-debug.cpp:94-224 | every tree code appends exactly its rendering `TreeText`; the decl fallbacks, the placeholders and `unk_tree_code(k)` for codes without a case are included |
| PhiDebug.Printer.ComponentTree | src/phi-debug/phi-debug.cpp:132-136 | appends the base's text, `->`, then the field's text |
| PhiDebug.Printer.BitFieldTree | src/phi-debug/phi-debug.cpp:137-145 | appends `base->(size : position)` |
| PhiDebug.Printer.ArrayTree | src/phi-debug/phi-debug.cpp:146-151 | appends `base[index]` |
| PhiDebug.Printer.ArrayRangeTree | src/phi-debug/phi-debug.cpp:152-160 | appends `base[op1:op2]` |
| PhiDebug.Printer.PrefixTree | src/phi-debug/phi-debug.cpp:161-171 | appends `*` or `&` before the operand's text |
| PhiDebug.Printer.TargetMemFields | src/phi-debug/phi-debug.cpp:172-188 | the sixteen writes of the `TARGET_MEM_REF` case, with the five operands in order, operand 2 labelled `STEP:` and operand 3 `INDEX1:` |
| PhiDebug.Printer.TargetMemTree | src/phi-debug/phi-debug.cpp:172-189 | appends `TMR(BASE: .., OFFSET: .., STEP: .., INDEX1: .., INDEX2: .. )` |
| PhiDebug.Printer.MemTree | src/phi-debug/phi-debug.cpp:190-196 | appends `((typeof(` offset `))` address `)`, operand 1 before operand 0 |
| PhiDebug.Printer.PhiTree | src/phi-debug/phi-debug.cpp:198-210 | a PHI-defined SSA name appends `(label = GIMPLE_PHI(` the arguments joined by `", "` `))` |
| PhiDebug.Printer.Operands | src/phi-debug/phi-debug.cpp:204-209 | the argument loop appends every argument's text in order, separated by `", "`, with none after the last |
| Render.OpSymbol | src/phi-debug/phi-debug.cpp:226-320 | every tree code prints a nonempty symbol, including codes without a case; the lemmas below state which codes print which symbol |
| Render.DivisionSymbol | src/phi-debug/phi-debug.cpp:241-248 | an operator prints `/` if and only if it is one of the six division codes |
| Render.AdditiveSymbols | src/phi-debug/phi-debug.cpp:230-237 | `+` exactly for `POINTER_PLUS_EXPR` and `PLUS_EXPR`; `-` exactly for `NEGATE_EXPR` and `MINUS_EXPR` |
| Render.NegationSymbols | src/phi-debug/phi-debug.cpp:266-287 | `!` exactly for `BIT_NOT_EXPR`; `!<` exactly for `TRUTH_NOT_EXPR`, whose case runs into the `<` case |
| Render.ComparisonSymbols | src/phi-debug/phi-debug.cpp:284-307 | `<` exactly for `LT_EXPR` and `UNLT_EXPR`; `!=` exactly for `NE_EXPR` and `LTGT_EXPR` |
| Render.UnknownSymbol | src/phi-debug/phi-debug.cpp:315-317 | every symbol is nonempty, and it starts with `?` if and only if the code has no case |
| PhiDebug.Printer.BinaryAssign | src/phi-debug/phi-debug.cpp:331-341 | the three-operand case appends `lhs = rhs1 op rhs2 }` and the newline |
| PhiDebug.Printer.OnAssign | src/phi-debug/phi-debug.cpp:322-344 | appends the assignment's line: the head, then a single-operand right side printed without its operator, a binary operation or nothing, depending on `gimple_num_ops` |
| PhiDebug.Printer.OnCall | src/phi-debug/phi-debug.cpp:346-365 | appends the call's line: `lhs = ` only when there is an lhs, then the callee and its joined arguments |
| PhiDebug.Printer.OnCond | src/phi-debug/phi-debug.cpp:383-394 | appends `lhs op rhs` with the statement's operator code |
| PhiDebug.Printer.OnLabel | src/phi-debug/phi-debug.cpp:396-402 | appends the label head and `{}` |
| PhiDebug.Printer.OnReturn | src/phi-debug/phi-debug.cpp:404-411 | appends the return head and `{}` |
| PhiDebug.Printer.OnUnknown | src/phi-debug/phi-debug.cpp:413-418 | appends `GIMPLE_UNKNOWN` with the statement's own code and `{}` |
| PhiDebug.Printer.Statement | src/phi-debug/phi-debug.cpp:426-450 | dispatches on the statement kind, and every other kind goes to the unknown printer |
| PhiDebug.Printer.Statements | src/phi-debug/phi-debug.cpp:421-454 | the loop appends the lines of all statements, in block order |
| PhiDebug.Printer.BlockSection | src/phi-debug/phi-debug.cpp:460-465 | one block: header, ` {`, its statements, `\t}` |
| PhiDebug.Printer.Report | src/phi-debug/phi-debug.cpp:456-469 | the function's report: its opening line, every block's section in order, `}` and a blank line |
| Layout.TreeOneLine | src/phi-debug/phi-debug.cpp:94-224 | a tree whose names and strings hold no newline prints without one |
| Layout.AssignLine | src/phi-debug/phi-debug.cpp:322-344 | an assignment prints exactly one line |
| Layout.CallLine | src/phi-debug/phi-debug.cpp:346-365 | a call prints exactly one line |
| Layout.CondLine | src/phi-debug/phi-debug.cpp:383-394 | a condition prints exactly one line |
| Layout.StmtIsLine | src/phi-debug/phi-debug.cpp:322-418 | every statement kind prints exactly one line |
| Layout.StatementsLines | src/phi-debug/phi-debug.cpp:421-454 | a block's statements take exactly as many lines as there are statements |
| Layout.BlockIdOneLine | src/phi-debug/phi-debug.cpp:66-92 | the block header holds no newline |
| Layout.BlockLines | src/phi-debug/phi-debug.cpp:460-465 | a block section has two lines more than its statements |
| Layout.ReportLines | src/phi-debug/phi-debug.cpp:456-469 | a report has three lines of frame plus, per block, its statements and two more |
| Examples.EntryBlockHeader | src/phi-debug/phi-debug.cpp:66-92 | block 0 with no predecessors and successors 1, 2 has the header `\tbb: () -> (0) -> (1, 2)` |
| Examples.SinglePredecessorHeader | src/phi-debug/phi-debug.cpp:66-92 | a single predecessor prints without a separator: `\tbb: (2) -> (3) -> ()` |
| Examples.BinaryAssignLine | src/phi-debug/phi-debug.cpp:331-341 | `w = x - y` is printed as ` { w = x - y }` |
| Examples.OtherArityAssignLine | src/phi-debug/phi-debug.cpp:325-341 | an assignment with four operands prints ` {  }` |
| Examples.PrintfCallLine | src/phi-debug/phi-debug.cpp:346-365 | a value-less call prints ` { printf("hi", 42) }`, the string cut at its NUL |
| Examples.StopsAtNul | src/phi-debug/phi-debug.cpp:115-116 | a string constant stops at its first NUL |
| Examples.PhiName | src/phi-debug/phi-debug.cpp:198-210 | `x__v3` defined by a PHI of `x__v1` and `x__v2` prints `(x__v3 = GIMPLE_PHI(x__v1, x__v2))` |
| Examples.LoopCounterRenders | src/phi-debug/phi-debug.cpp:198-214 | a loop counter `i_1 = PHI(0, i_2)` with `i_2` defined by an ordinary statement prints `(i__v1 = GIMPLE_PHI(0, i__v2))`; the expansion stops at the non-PHI name |
| Examples.MemRefOrder | src/phi-debug/phi-debug.cpp:190-196 | a `MEM_REF` of `p` at offset 0 prints `((typeof(0))p)` |
| Examples.UnknownTreeCode | src/phi-debug/phi-debug.cpp:218-220 | tree code 42 without a case prints `unk_tree_code(42)` |
| Examples.UnknownOperator | src/phi-debug/phi-debug.cpp:315-317 | operator code 77 without a case prints `?(77)?` |
| Examples.AnonymousLabel | src/phi-debug/phi-debug.cpp:119-121 | an anonymous label prints `unk_label_decl:`; its colon is kept |

## Left out

- The plugin shim is not modelled. That covers `plugin_is_GPL_compatible`,
  `plugin_info`, the pass data and pass struct with its `execute`,
  `plugin_init`'s version check and the pass registration
  (src/phi-debug/phi-debug.cpp:29-64, 471-490). It is host registration,
  not rendering.
- GCC's accessors (`TREE_OPERAND`, `DECL_NAME`, `SSA_NAME_DEF_STMT`,
  `FOR_EACH_EDGE`, `FOR_EACH_BB_FN`, the `gsi_*` iterators) are foreign
  calls. They are read as datatype fields.
- `fndecl_name` and `function_name` are foreign calls too. Their results
  are the `callee` and `name` strings of the model.
- The numeric values of the `gimple_code` enumerators printed in the
  statement heads differ between GCC versions. They are the parameter
  record `GimpleCodes`.
  - A statement of another kind carries its own code in `Other(code)`.
  - The model does not exclude a `code` equal to one of the five
    enumerators. The source's `switch` would send such a statement to the
    matching case.
  - Likewise `Expr.Unknown(code)` and `Op.OtherCode(code)` may carry the
    number of a tree code the renderer has a case for. For example,
    `Unknown(n)` with `n` the number of `INTEGER_CST` prints
    `unk_tree_code(n)`, where the source would take the `INTEGER_CST` case.
- `TREE_INT_CST_LOW` is modelled as the unsigned low 64-bit word
  (`Word64`), printed in decimal. Wide-int semantics and the sign of
  negative constants are not modelled.
- The values of `REAL_CST`, `FIXED_CST`, `COMPLEX_CST` and `VECTOR_CST` are
  not modelled. Only their fixed placeholder words are printed.
- The `printf(" = ")` at line 352 goes to C's `stdout`, while everything
  else goes through `std::cout`. In the model both go to the one output
  string, in program order. That is exact, because `std::cout` is
  synchronized with `stdout` by default and the plugin does not turn this
  off.
- `std::endl` is modelled as the newline it writes. Its flush is not.
- The commented-out PHI statement printer and its dispatch case
  (src/phi-debug/phi-debug.cpp:367-381, 433-437) are dead code.
- A cycle made entirely of PHI-defined SSA names (for example
  `x_1 = PHI(x_0, x_4)` with `x_4 = PHI(x_1, x_5)`) cannot be written as a
  finite `Expr`, and the source would recurse without end on it. A cycle
  that passes through a name defined by any other statement is finite: the
  source prints that name as its bare label (lines 211-213) and stops.
  `Examples.LoopCounterRenders` shows this for a loop counter.
- Null operands are not modelled. For example, the third operand of
  `ARRAY_RANGE_REF` (line 157) may be null, and the source would then
  dereference a null tree. Every operand in the model is a tree.
- PhiDebug.EdgeList: requires the `stringstream` text to be shorter than
  2^64 characters. Any `std::string` is shorter than that, since its size
  is a `size_t`. `PhiDebug.Printer.BlockId`, `BlockSection` and `Report`
  pass this requirement on for every block.
- Names are taken to hold no NUL character. `IDENTIFIER_POINTER`
  (lines 120-129, 201, 212), `fndecl_name` (line 354) and `function_name`
  (line 458) reach `operator<<` as C strings, which stop at the first NUL.
  The model prints these names whole and applies `CString` only to string
  constants.
- Render.TreeTextNonEmpty: a field, variable or constant declaration whose
  name is the empty identifier prints nothing, as the source would. The
  nonempty promise therefore excludes that one case.
- Layout.TreeOneLine: the one-line property is stated only for trees whose
  names and strings contain no newline. The source does not escape them,
  so a newline inside a name breaks the report's line structure.
- src/test/test.c is not part of this model. It is an input file for
  running the plugin and holds no renderer logic.
