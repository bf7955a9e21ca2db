/**
 * The read-only view of GCC's intermediate representation that the
 * renderer walks: trees (expressions), tree codes used as operators,
 * GIMPLE statements, basic blocks and the function. GCC's accessor macros
 * (`TREE_OPERAND`, `DECL_NAME`, `SSA_NAME_DEF_STMT`, `FOR_EACH_EDGE`, the
 * `gsi_*` iterators, ...) become datatype fields.
 */
module Gimple {

  datatype Option<T> = None | Some(value: T)

  /** `TREE_INT_CST_LOW`: the low 64-bit word of an integer constant, unsigned. */
  type Word64 = n: nat | n < 0x1_0000_0000_0000_0000

  /**
   * A tree, by `TREE_CODE`. Operand order follows `TREE_OPERAND(t, i)`.
   * `Unknown(code)` stands for every tree code the renderer has no case
   * for, carrying that code's number.
   *
   * An SSA name carries what the renderer reads of its defining statement
   * (`SSA_NAME_DEF_STMT`): see `DefStmt`.
   *
   * The fields of `ArrayRangeRef` are its operands 0 to 2. Those of
   * `TargetMemRef` are named after GCC's accessors for operands 0 to 4
   * (`TMR_BASE`, `TMR_OFFSET`, `TMR_INDEX`, `TMR_STEP`, `TMR_INDEX2`); the
   * renderer labels operand 2 `STEP:` and operand 3 `INDEX1:`.
   */
  datatype Expr =
    | IntegerCst(low: Word64)
    | RealCst
    | FixedCst
    | ComplexCst
    | VectorCst
    | StringCst(text: string)
    | LabelDecl(labelName: Option<string>)
    | FieldDecl(fieldName: Option<string>)
    | VarDecl(varName: Option<string>)
    | ConstDecl(constName: Option<string>)
    | ComponentRef(aggregate: Expr, field: Expr)
    | BitFieldRef(bitBase: Expr, bitSize: Expr, bitPos: Expr)
    | ArrayRef(arrayBase: Expr, index: Expr)
    | ArrayRangeRef(rangeArray: Expr, rangeIndex: Expr, rangeOperand2: Expr)
    | IndirectRef(pointer: Expr)
    | Constructor
    | AddrExpr(operand: Expr)
    | TargetMemRef(tmrBase: Expr, tmrOffset: Expr, tmrIndex: Expr, tmrStep: Expr, tmrIndex2: Expr)
    | MemRef(address: Expr, offset: Expr)
    | SsaName(identifier: Option<string>, version: nat, def: DefStmt)
    | Unknown(code: nat)

  /**
   * The defining statement of an SSA name, as far as the renderer looks at
   * it: a PHI with its argument trees (`gimple_phi_arg(stmt, i)->def`, in
   * argument order), or a statement of any other kind. A name defined by a
   * non-PHI statement ends the expansion, so a loop counter
   * `i_1 = PHI(0, i_2)` with `i_2 = i_1 + 1` is a finite value. Only a
   * cycle made entirely of PHI-defined names, such as `x_1 = PHI(x_0, x_4)`
   * with `x_4 = PHI(x_1, x_5)`, cannot be written down as a value of this
   * type.
   */
  datatype DefStmt =
    | Phi(phiArgs: seq<Expr>)
    | NotPhi

  /**
   * The tree codes `phi_debug_op` distinguishes, and `OtherCode` carrying
   * the number of any other code.
   */
  datatype Op =
    | PointerPlus | Plus | Negate | Minus | Mult
    | TruncDiv | CeilDiv | FloorDiv | RoundDiv | ExactDiv | RDiv
    | LShift | RShift
    | BitIor | BitXor | BitAnd | BitNot
    | TruthAndIf | TruthAnd | TruthOrIf | TruthOr | TruthXor | TruthNot
    | Lt | UnLt | Le | UnLe | Gt | UnGt | Ge | UnGe | Eq | UnEq | Ne | LtGt
    | Unordered | Ordered
    | OtherCode(code: nat)

  /**
   * A GIMPLE statement, by `gimple_code`.
   * - `Assign`: `rhs` holds the operands after the lhs, so `gimple_num_ops`
   *   is `|rhs| + 1`; `rhsCode` is `gimple_assign_rhs_code`.
   * - `Cond`: `code` is the statement's operator code, the value the source
   *   obtains through `gimple_assign_rhs_code` (the subcode, which for a
   *   condition is its comparison, in a GCC built without GIMPLE checking).
   * - `Call`: `callee` is what `fndecl_name` returns for the called decl.
   * - `Other(code)`: any other statement code, with its number.
   * PHI nodes are not in a block's statement sequence.
   */
  datatype Stmt =
    | Assign(rhsCode: Op, lhs: Expr, rhs: seq<Expr>)
    | Call(callLhs: Option<Expr>, callee: string, args: seq<Expr>)
    | Cond(code: Op, condLhs: Expr, condRhs: Expr)
    | Label
    | Return
    | Other(stmtCode: nat)

  /** A basic block: its index, the source indices of its incoming edges,
      the destination indices of its outgoing edges, and its statements. */
  datatype Block = Block(index: int, preds: seq<int>, succs: seq<int>, stmts: seq<Stmt>)

  /** A function: the name `function_name` gives and its blocks in
      `FOR_EACH_BB_FN` order. */
  datatype Function = Function(name: string, blocks: seq<Block>)

  /**
   * The numbers of the `gimple_code` enumerators the statement headers
   * print. They differ between GCC versions, so the model takes them as a
   * parameter.
   */
  datatype GimpleCodes = GimpleCodes(assign: nat, call: nat, cond: nat, labelCode: nat, ret: nat)
}
