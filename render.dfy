/**
 * The text `phi_debug` writes, as pure functions of the IR: these are the
 * specifications the printing methods of `PhiDebug` are proved against, and
 * the lemmas here state what the renderings mean.
 *
 * Source: src/phi-debug/phi-debug.cpp.
 */
module Render {
  import opened Text
  import opened Gimple

  // ------------------------------------------------------------ expressions

  /** `IDENTIFIER_POINTER(DECL_NAME(t))` when the name is there, else `fallback`. */
  function NameOr(name: Option<string>, fallback: string): string
  {
    match name
    case Some(n) => n
    case None => fallback
  }

  /**
   * What `operator<<` writes for a `const char *`: the characters before
   * the first NUL. `TREE_STRING_POINTER` is printed this way.
   */
  function CString(s: string): (r: string)
    ensures |r| <= |s| && r == s[..|r|]
    ensures '\0' !in r
    ensures |r| < |s| ==> s[|r|] == '\0'
    decreases |s|
  {
    if |s| == 0 || s[0] == '\0' then "" else [s[0]] + CString(s[1..])
  }

  /** `name__vN`, with `unk_ssa_name` for an anonymous SSA name. */
  function SsaLabel(identifier: Option<string>, version: nat): string
  {
    NameOr(identifier, "unk_ssa_name") + "__v" + NatStr(version)
  }

  /** `phi_debug_tree`: the text of one tree. */
  function TreeText(e: Expr): string
    decreases e
  {
    match e
    case IntegerCst(low) => NatStr(low)
    case RealCst => "REAL_CST"
    case FixedCst => "FIXED_CST"
    case ComplexCst => "COMPLEX_CST"
    case VectorCst => "VECTOR_CST"
    case StringCst(text) => "\"" + CString(text) + "\""
    case LabelDecl(name) => NameOr(name, "unk_label_decl") + ":"
    case FieldDecl(name) => NameOr(name, "unk_field_decl")
    case VarDecl(name) => NameOr(name, "unk_var_decl")
    case ConstDecl(name) => NameOr(name, "unk_const_decl")
    case ComponentRef(aggregate, field) => TreeText(aggregate) + "->" + TreeText(field)
    case BitFieldRef(b, size, pos) =>
      TreeText(b) + "->" + "(" + TreeText(size) + " : " + TreeText(pos) + ")"
    case ArrayRef(a, i) => TreeText(a) + "[" + TreeText(i) + "]"
    case ArrayRangeRef(a, index, op2) => TreeText(a) + "[" + TreeText(index) + ":" + TreeText(op2) + "]"
    case IndirectRef(p) => "*" + TreeText(p)
    case Constructor => "constructor"
    case AddrExpr(x) => "&" + TreeText(x)
    case TargetMemRef(b, off, index, step, index2) =>
      "TMR(" + "BASE: " + TreeText(b) + ", " + "OFFSET: " + TreeText(off) + ", "
      + "STEP: " + TreeText(index) + ", " + "INDEX1: " + TreeText(step) + ", "
      + "INDEX2: " + TreeText(index2) + " )"
    case MemRef(address, offset) => "((typeof(" + TreeText(offset) + "))" + TreeText(address) + ")"
    case SsaName(identifier, version, NotPhi) => SsaLabel(identifier, version)
    case SsaName(identifier, version, Phi(args)) =>
      "(" + SsaLabel(identifier, version) + " = GIMPLE_PHI(" + Join(TreeTexts(args), ", ") + "))"
    case Unknown(code) => "unk_tree_code(" + NatStr(code) + ")"
  }

  /** The texts of `es`, in order. */
  function TreeTexts(es: seq<Expr>): (r: seq<string>)
    decreases es
    ensures |r| == |es|
    ensures forall i :: 0 <= i < |es| ==> r[i] == TreeText(es[i])
  {
    seq(|es|, i requires 0 <= i < |es| => TreeText(es[i]))
  }

  /**
   * Every tree prints some text. Only a field, variable or constant
   * declaration can print nothing, namely when its name is the empty
   * identifier; every other case writes at least one literal character.
   */
  lemma TreeTextNonEmpty(e: Expr)
    requires e.FieldDecl? && e.fieldName.Some? ==> e.fieldName.value != ""
    requires e.VarDecl? && e.varName.Some? ==> e.varName.value != ""
    requires e.ConstDecl? && e.constName.Some? ==> e.constName.value != ""
    ensures 0 < |TreeText(e)|
  {
  }

  // --------------------------------------------------------------- operators

  predicate IsDivision(op: Op)
  {
    op in {TruncDiv, CeilDiv, FloorDiv, RoundDiv, ExactDiv, RDiv}
  }

  /**
   * `phi_debug_op`: the symbol of a tree code. `TRUTH_NOT_EXPR` has no
   * `break` and runs on into the `LT_EXPR` case, so it prints `!<`.
   */
  function OpSymbol(op: Op): (r: string)
    ensures 0 < |r|
  {
    match op
    case PointerPlus | Plus => "+"
    case Negate | Minus => "-"
    case Mult => "*"
    case TruncDiv | CeilDiv | FloorDiv | RoundDiv | ExactDiv | RDiv => "/"
    case LShift => "<<"
    case RShift => ">>"
    case BitIor => "|"
    case BitXor => "^"
    case BitAnd => "&"
    case BitNot => "!"
    case TruthAndIf | TruthAnd => "&&"
    case TruthOrIf | TruthOr => "||"
    case TruthXor => "^^"
    // TRUTH_NOT_EXPR has no break and runs into the LT_EXPR case
    case TruthNot => "!<"
    case Lt | UnLt => "<"
    case Le | UnLe => "<="
    case Gt | UnGt => ">"
    case Ge | UnGe => ">="
    case Eq | UnEq => "=="
    case Ne | LtGt => "!="
    case Unordered => "unord"
    case Ordered => "ord"
    case OtherCode(code) => "?(" + NatStr(code) + ")?"
  }

  /** The six division codes, and only they, print `/`. */
  lemma DivisionSymbol(op: Op)
    ensures OpSymbol(op) == "/" <==> IsDivision(op)
  {
    match op
    case PointerPlus | Plus =>
    case Negate | Minus =>
    case Mult =>
    case TruncDiv | CeilDiv | FloorDiv | RoundDiv | ExactDiv | RDiv =>
    case LShift | RShift =>
    case BitIor | BitXor | BitAnd | BitNot =>
    case TruthAndIf | TruthAnd | TruthOrIf | TruthOr | TruthXor | TruthNot =>
    case Lt | UnLt | Le | UnLe | Gt | UnGt | Ge | UnGe | Eq | UnEq | Ne | LtGt =>
    case Unordered | Ordered =>
    case OtherCode(_) =>
  }

  /** The two additions print `+`, negation and subtraction `-`. */
  lemma AdditiveSymbols(op: Op)
    ensures OpSymbol(op) == "+" <==> op in {PointerPlus, Plus}
    ensures OpSymbol(op) == "-" <==> op in {Negate, Minus}
  {
    match op
    case PointerPlus | Plus =>
    case Negate | Minus =>
    case Mult =>
    case TruncDiv | CeilDiv | FloorDiv | RoundDiv | ExactDiv | RDiv =>
    case LShift | RShift =>
    case BitIor | BitXor | BitAnd | BitNot =>
    case TruthAndIf | TruthAnd | TruthOrIf | TruthOr | TruthXor | TruthNot =>
    case Lt | UnLt | Le | UnLe | Gt | UnGt | Ge | UnGe | Eq | UnEq | Ne | LtGt =>
    case Unordered | Ordered =>
    case OtherCode(_) =>
  }

  /**
   * `!` is `BIT_NOT_EXPR` alone, and `!<` is `TRUTH_NOT_EXPR` alone (its
   * case runs into the `<` case).
   */
  lemma NegationSymbols(op: Op)
    ensures OpSymbol(op) == "!" <==> op == BitNot
    ensures OpSymbol(op) == "!<" <==> op == TruthNot
  {
    match op
    case PointerPlus | Plus =>
    case Negate | Minus =>
    case Mult =>
    case TruncDiv | CeilDiv | FloorDiv | RoundDiv | ExactDiv | RDiv =>
    case LShift | RShift =>
    case BitIor | BitXor | BitAnd | BitNot =>
    case TruthAndIf | TruthAnd | TruthOrIf | TruthOr | TruthXor | TruthNot =>
    case Lt | UnLt | Le | UnLe | Gt | UnGt | Ge | UnGe | Eq | UnEq | Ne | LtGt =>
    case Unordered | Ordered =>
    case OtherCode(_) =>
  }

  /** The ordered and unordered forms of a comparison share a symbol. */
  lemma ComparisonSymbols(op: Op)
    ensures OpSymbol(op) == "<" <==> op in {Lt, UnLt}
    ensures OpSymbol(op) == "!=" <==> op in {Ne, LtGt}
  {
  }

  /** Every symbol is nonempty, and exactly the unlisted codes print a `?`-form. */
  lemma UnknownSymbol(op: Op)
    ensures 0 < |OpSymbol(op)| && (OpSymbol(op)[0] == '?' <==> op.OtherCode?)
  {
    match op
    case PointerPlus | Plus =>
    case Negate | Minus =>
    case Mult =>
    case TruncDiv | CeilDiv | FloorDiv | RoundDiv | ExactDiv | RDiv =>
    case LShift | RShift =>
    case BitIor | BitXor | BitAnd | BitNot =>
    case TruthAndIf | TruthAnd | TruthOrIf | TruthOr | TruthXor | TruthNot =>
    case Lt | UnLt | Le | UnLe | Gt | UnGt | Ge | UnGe | Eq | UnEq | Ne | LtGt =>
    case Unordered | Ordered =>
    case OtherCode(_) =>
  }

  // -------------------------------------------------------------- statements

  /** `\t\tstmt: "KIND" (code)`, the opening every statement line shares. */
  function StmtHead(kind: string, code: nat): string
  {
    "\t\t" + "stmt: " + "\"" + kind + "\"" + " " + "(" + NatStr(code) + ")"
  }

  /**
   * `phi_debug_on_gimple_assign`: with two operands (`gimple_num_ops` 2) a
   * single-operand right side `lhs = rhs1`, printed without its operator
   * even when it is a unary operation; with three a binary operation
   * `lhs = rhs1 op rhs2`; and with any other count nothing between the
   * braces.
   */
  function AssignText(k: GimpleCodes, rhsCode: Op, lhs: Expr, rhs: seq<Expr>): string
  {
    var head := StmtHead("GIMPLE_ASSIGN", k.assign) + " { ";
    if |rhs| + 1 == 2 then head + TreeText(lhs) + " = " + TreeText(rhs[0]) + " }" + "\n"
    else if |rhs| + 1 == 3 then
      head + TreeText(lhs) + " = " + TreeText(rhs[0]) + " " + OpSymbol(rhsCode) + " "
      + TreeText(rhs[1]) + " }" + "\n"
    else head + " }" + "\n"
  }

  /** `lhs = ` when the call's value is stored, else nothing. */
  function CallLhsText(lhs: Option<Expr>): string
  {
    match lhs
    case Some(l) => TreeText(l) + " = "
    case None => ""
  }

  function CallBody(lhs: Option<Expr>, callee: string, args: seq<Expr>): string
  {
    CallLhsText(lhs) + callee + "(" + Join(TreeTexts(args), ", ") + ")"
  }

  /** `phi_debug_on_gimple_call`. */
  function CallText(k: GimpleCodes, lhs: Option<Expr>, callee: string, args: seq<Expr>): string
  {
    StmtHead("GIMPLE_CALL", k.call) + " { " + CallBody(lhs, callee, args) + " }" + "\n"
  }

  /** `phi_debug_on_gimple_cond`. */
  function CondText(k: GimpleCodes, code: Op, lhs: Expr, rhs: Expr): string
  {
    StmtHead("GIMPLE_COND", k.cond) + " { " + TreeText(lhs) + " " + OpSymbol(code) + " "
    + TreeText(rhs) + " }" + "\n"
  }

  /** `phi_debug_on_gimple_label`. */
  function LabelText(k: GimpleCodes): string
  {
    StmtHead("GIMPLE_LABEL", k.labelCode) + " {" + "}" + "\n"
  }

  /** `phi_debug_on_gimple_return`. */
  function ReturnText(k: GimpleCodes): string
  {
    StmtHead("GIMPLE_RETURN", k.ret) + " {" + "}" + "\n"
  }

  /** `phi_debug_on_unknown_stmt`: the statement's own code is printed. */
  function UnknownText(code: nat): string
  {
    StmtHead("GIMPLE_UNKNOWN", code) + " {}" + "\n"
  }

  /** The dispatch of `phi_debug_statements` on `gimple_code`. */
  function StmtText(k: GimpleCodes, s: Stmt): string
  {
    match s
    case Assign(rhsCode, lhs, rhs) => AssignText(k, rhsCode, lhs, rhs)
    case Call(lhs, callee, args) => CallText(k, lhs, callee, args)
    case Cond(code, lhs, rhs) => CondText(k, code, lhs, rhs)
    case Label => LabelText(k)
    case Return => ReturnText(k)
    case Other(code) => UnknownText(code)
  }

  /** `phi_debug_statements`: the statements' lines in block order. */
  function StatementsText(k: GimpleCodes, ss: seq<Stmt>): string
    decreases |ss|
  {
    if |ss| == 0 then "" else StatementsText(k, ss[..|ss| - 1]) + StmtText(k, ss[|ss| - 1])
  }

  lemma StatementsTextStep(k: GimpleCodes, ss: seq<Stmt>, i: nat)
    requires i < |ss|
    ensures StatementsText(k, ss[..i + 1]) == StatementsText(k, ss[..i]) + StmtText(k, ss[i])
  {
    assert ss[..i + 1][..i] == ss[..i];
  }

  // ------------------------------------------------------- blocks, function

  function IntStrs(xs: seq<int>): (r: seq<string>)
    ensures |r| == |xs|
    ensures forall i :: 0 <= i < |xs| ==> r[i] == IntStr(xs[i])
  {
    seq(|xs|, i requires 0 <= i < |xs| => IntStr(xs[i]))
  }

  /** `\tbb: (preds) -> (index) -> (succs)`, the edge lists `, `-joined. */
  function BlockIdText(b: Block): string
  {
    "\t" + "bb: " + "(" + Join(IntStrs(b.preds), ", ") + ")"
    + " -> " + "(" + IntStr(b.index) + ")" + " -> "
    + "(" + Join(IntStrs(b.succs), ", ") + ")"
  }

  /** One block's section of the function report. */
  function BlockText(k: GimpleCodes, b: Block): string
  {
    BlockIdText(b) + " {" + "\n" + StatementsText(k, b.stmts) + "\t" + "}" + "\n"
  }

  function BlocksText(k: GimpleCodes, bs: seq<Block>): string
    decreases |bs|
  {
    if |bs| == 0 then "" else BlocksText(k, bs[..|bs| - 1]) + BlockText(k, bs[|bs| - 1])
  }

  lemma BlocksTextStep(k: GimpleCodes, bs: seq<Block>, i: nat)
    requires i < |bs|
    ensures BlocksText(k, bs[..i + 1]) == BlocksText(k, bs[..i]) + BlockText(k, bs[i])
  {
    assert bs[..i + 1][..i] == bs[..i];
  }

  /** `phi_debug_function`: the whole report of one function. */
  function FunctionText(k: GimpleCodes, f: Function): string
  {
    "func: " + "\"" + f.name + "\"" + " {" + "\n" + BlocksText(k, f.blocks) + "}" + "\n" + "\n"
  }
}
