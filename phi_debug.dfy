/**
 * The printing routines of src/phi-debug/phi-debug.cpp as imperative code
 * over an output sink. `std::cout` is the `out` field of a `Printer`; every
 * method appends to it in the order the source writes, and is proved to
 * append exactly the text the matching function of `Render` specifies.
 */
module PhiDebug {
  import opened Text
  import opened Gimple
  import opened Render

  /** A `std::string` holds fewer than 2^64 characters. */
  predicate EdgeStreamFits(indices: seq<int>)
  {
    |Suffixed(IntStrs(indices), ", ")| < SIZE_MOD
  }

  predicate BlockFits(b: Block)
  {
    EdgeStreamFits(b.preds) && EdgeStreamFits(b.succs)
  }

  /**
   * The edge list of `phi_debug_bb_id`: a `stringstream` receives every
   * index followed by `", "`, and its string is printed without its last
   * two characters. The result is the proper `", "`-join.
   */
  method EdgeList(indices: seq<int>) returns (s: string)
    requires EdgeStreamFits(indices)
    ensures s == Join(IntStrs(indices), ", ")
  {
    var stream := "";
    var i := 0;
    while i < |indices|
      invariant 0 <= i <= |indices|
      invariant stream == Suffixed(IntStrs(indices[..i]), ", ")
    {
      EdgeStreamStep(indices, i);
      stream := stream + IntStr(indices[i]) + ", ";
      i := i + 1;
    }
    assert indices[..i] == indices;
    TrimmedSuffixedIsJoin(IntStrs(indices), ", ");
    s := TrimLast2(stream);
  }

  lemma EdgeStreamStep(indices: seq<int>, i: nat)
    requires i < |indices|
    ensures Suffixed(IntStrs(indices[..i + 1]), ", ")
         == Suffixed(IntStrs(indices[..i]), ", ") + IntStr(indices[i]) + ", "
  {
    assert IntStrs(indices[..i + 1])[..i] == IntStrs(indices[..i]);
  }

  class Printer {
    /** Everything written to `std::cout` so far. */
    var out: string
    /** The numbers of the `gimple_code` enumerators of the host compiler. */
    const codes: GimpleCodes

    constructor (codes: GimpleCodes)
      ensures out == "" && this.codes == codes
    {
      out := "";
      this.codes := codes;
    }

    /** `phi_debug_bb_id`. */
    method BlockId(b: Block)
      requires BlockFits(b)
      modifies this
      ensures out == old(out) + BlockIdText(b)
    {
      var src := EdgeList(b.preds);
      var dst := EdgeList(b.succs);
      out := out + "\t";
      out := out + "bb: ";
      out := out + "(";
      out := out + src;
      out := out + ")";
      out := out + " -> ";
      Regroup6(old(out), "\t", "bb: ", "(", src, ")", " -> ");
      ghost var mid := out;
      out := out + "(";
      out := out + IntStr(b.index);
      out := out + ")";
      out := out + " -> ";
      out := out + "(";
      out := out + dst;
      out := out + ")";
      ghost var first := "\t" + "bb: " + "(" + src + ")" + " -> ";
      Regroup7(mid, "(", IntStr(b.index), ")", " -> ", "(", dst, ")");
      AppendAssoc(old(out), first, "(" + IntStr(b.index) + ")" + " -> " + "(" + dst + ")");
      Regroup7(first, "(", IntStr(b.index), ")", " -> ", "(", dst, ")");
    }

    /** `phi_debug_tree`. */
    method Tree(e: Expr)
      modifies this
      ensures out == old(out) + TreeText(e)
      decreases e, 2
    {
      match e {
        case IntegerCst(low) => out := out + NatStr(low);
        case RealCst => out := out + "REAL_CST";
        case FixedCst => out := out + "FIXED_CST";
        case ComplexCst => out := out + "COMPLEX_CST";
        case VectorCst => out := out + "VECTOR_CST";
        case StringCst(text) =>
          out := out + "\"";
          out := out + CString(text);
          out := out + "\"";
          Regroup3(old(out), "\"", CString(text), "\"");
        case LabelDecl(name) =>
          out := out + NameOr(name, "unk_label_decl");
          out := out + ":";
          AppendAssoc(old(out), NameOr(name, "unk_label_decl"), ":");
        case FieldDecl(name) => out := out + NameOr(name, "unk_field_decl");
        case VarDecl(name) => out := out + NameOr(name, "unk_var_decl");
        case ConstDecl(name) => out := out + NameOr(name, "unk_const_decl");
        case ComponentRef(_, _) => ComponentTree(e);
        case BitFieldRef(_, _, _) => BitFieldTree(e);
        case ArrayRef(_, _) => ArrayTree(e);
        case ArrayRangeRef(_, _, _) => ArrayRangeTree(e);
        case IndirectRef(_) => PrefixTree(e);
        case Constructor => out := out + "constructor";
        case AddrExpr(_) => PrefixTree(e);
        case TargetMemRef(_, _, _, _, _) => TargetMemTree(e);
        case MemRef(_, _) => MemTree(e);
        case SsaName(identifier, version, NotPhi) =>
          out := out + SsaLabel(identifier, version);
        case SsaName(_, _, Phi(_)) => PhiTree(e);
        case Unknown(code) =>
          out := out + "unk_tree_code(";
          out := out + NatStr(code);
          out := out + ")";
          Regroup3(old(out), "unk_tree_code(", NatStr(code), ")");
      }
    }

    /** `COMPONENT_REF`: `base->field`. */
    method ComponentTree(e: Expr)
      requires e.ComponentRef?
      modifies this
      ensures out == old(out) + TreeText(e)
      decreases e, 1
    {
      Tree(e.aggregate);
      out := out + "->";
      Tree(e.field);
      Regroup3(old(out), TreeText(e.aggregate), "->", TreeText(e.field));
    }

    /** `BIT_FIELD_REF`: `base->(size : position)`. */
    method BitFieldTree(e: Expr)
      requires e.BitFieldRef?
      modifies this
      ensures out == old(out) + TreeText(e)
      decreases e, 1
    {
      Tree(e.bitBase);
      out := out + "->";
      out := out + "(";
      Tree(e.bitSize);
      out := out + " : ";
      Tree(e.bitPos);
      out := out + ")";
      Regroup7(old(out), TreeText(e.bitBase), "->", "(", TreeText(e.bitSize), " : ", TreeText(e.bitPos), ")");
    }

    /** `ARRAY_REF`: `base[index]`. */
    method ArrayTree(e: Expr)
      requires e.ArrayRef?
      modifies this
      ensures out == old(out) + TreeText(e)
      decreases e, 1
    {
      Tree(e.arrayBase);
      out := out + "[";
      Tree(e.index);
      out := out + "]";
      Regroup4(old(out), TreeText(e.arrayBase), "[", TreeText(e.index), "]");
    }

    /** `ARRAY_RANGE_REF`: `base[op1:op2]`. */
    method ArrayRangeTree(e: Expr)
      requires e.ArrayRangeRef?
      modifies this
      ensures out == old(out) + TreeText(e)
      decreases e, 1
    {
      Tree(e.rangeArray);
      out := out + "[";
      Tree(e.rangeIndex);
      out := out + ":";
      Tree(e.rangeOperand2);
      out := out + "]";
      Regroup6(old(out), TreeText(e.rangeArray), "[", TreeText(e.rangeIndex), ":", TreeText(e.rangeOperand2), "]");
    }

    /** `INDIRECT_REF` and `ADDR_EXPR`: `*p` and `&x`. */
    method PrefixTree(e: Expr)
      requires e.IndirectRef? || e.AddrExpr?
      modifies this
      ensures out == old(out) + TreeText(e)
      decreases e, 1
    {
      if e.IndirectRef? {
        out := out + "*";
        Tree(e.pointer);
        AppendAssoc(old(out), "*", TreeText(e.pointer));
      } else {
        out := out + "&";
        Tree(e.operand);
        AppendAssoc(old(out), "&", TreeText(e.operand));
      }
    }

    /** `TARGET_MEM_REF`: its five operands, labelled. */
    method TargetMemTree(e: Expr)
      requires e.TargetMemRef?
      modifies this
      ensures out == old(out) + TreeText(e)
      decreases e, 1
    {
      TargetMemFields(e.tmrBase, e.tmrOffset, e.tmrIndex, e.tmrStep, e.tmrIndex2);
      TargetMemRegroup(old(out), TreeText(e.tmrBase), TreeText(e.tmrOffset), TreeText(e.tmrIndex),
        TreeText(e.tmrStep), TreeText(e.tmrIndex2));
    }

    /**
     * The writes of the `TARGET_MEM_REF` case, one by one: operand 2
     * (`TMR_INDEX`) under the label `STEP:`, operand 3 (`TMR_STEP`) under
     * `INDEX1:`.
     */
    method TargetMemFields(b: Expr, off: Expr, index: Expr, step: Expr, index2: Expr)
      modifies this
      ensures out == old(out) + "TMR(" + "BASE: " + TreeText(b) + ", " + "OFFSET: " + TreeText(off) + ", "
        + "STEP: " + TreeText(index) + ", " + "INDEX1: " + TreeText(step) + ", "
        + "INDEX2: " + TreeText(index2) + " )"
      decreases TargetMemRef(b, off, index, step, index2), 0
    {
      out := out + "TMR(";
      out := out + "BASE: ";
      Tree(b);
      out := out + ", ";
      out := out + "OFFSET: ";
      Tree(off);
      out := out + ", ";
      out := out + "STEP: ";
      Tree(index);
      out := out + ", ";
      out := out + "INDEX1: ";
      Tree(step);
      out := out + ", ";
      out := out + "INDEX2: ";
      Tree(index2);
      out := out + " )";
    }

    /** `MEM_REF`: the offset (operand 1) is printed before the address (operand 0). */
    method MemTree(e: Expr)
      requires e.MemRef?
      modifies this
      ensures out == old(out) + TreeText(e)
      decreases e, 1
    {
      out := out + "((typeof(";
      Tree(e.offset);
      out := out + "))";
      Tree(e.address);
      out := out + ")";
      Regroup5(old(out), "((typeof(", TreeText(e.offset), "))", TreeText(e.address), ")");
    }

    /** An SSA name defined by a PHI: the name, then the PHI's arguments. */
    method PhiTree(e: Expr)
      requires e.SsaName? && e.def.Phi?
      modifies this
      ensures out == old(out) + TreeText(e)
      decreases e, 1
    {
      var name := SsaLabel(e.identifier, e.version);
      out := out + "(";
      out := out + name;
      out := out + " = GIMPLE_PHI(";
      Operands(e.def.phiArgs);
      out := out + "))";
      Regroup5(old(out), "(", name, " = GIMPLE_PHI(", Join(TreeTexts(e.def.phiArgs), ", "), "))");
    }

    /**
     * The loop `phi_debug_tree` runs over a PHI's arguments and
     * `phi_debug_on_gimple_call` over a call's: every tree, with `", "`
     * after each but the last.
     */
    method Operands(es: seq<Expr>)
      modifies this
      ensures out == old(out) + Join(TreeTexts(es), ", ")
      decreases es, 0
    {
      ghost var texts := TreeTexts(es);
      AppendEmpty(out);
      var i := 0;
      while i < |es|
        invariant 0 <= i <= |es|
        invariant out == old(out) + Listed(texts, ", ", i)
      {
        ListedStep(old(out), texts, ", ", i);
        Tree(es[i]);
        if i != |es| - 1 {
          out := out + ", ";
        }
        i := i + 1;
      }
      ListedIsJoin(texts, ", ");
    }

    /**
     * `phi_debug_on_gimple_assign`: the operands shown are chosen by
     * `gimple_num_ops`, which is `|rhs| + 1`.
     */
    method OnAssign(rhsCode: Op, lhs: Expr, rhs: seq<Expr>)
      modifies this
      ensures out == old(out) + AssignText(codes, rhsCode, lhs, rhs)
    {
      var head := StmtHead("GIMPLE_ASSIGN", codes.assign);
      out := out + head;
      out := out + " { ";
      AppendAssoc(old(out), head, " { ");
      if |rhs| + 1 == 2 {
        Tree(lhs);
        out := out + " = ";
        Tree(rhs[0]);
        out := out + " }";
        out := out + "\n";
        Regroup6(old(out), head + " { ", TreeText(lhs), " = ", TreeText(rhs[0]), " }", "\n");
      } else if |rhs| + 1 == 3 {
        BinaryAssign(rhsCode, lhs, rhs[0], rhs[1]);
        Regroup7(old(out), head + " { ", TreeText(lhs), " = ", TreeText(rhs[0]), " ", OpSymbol(rhsCode), " ");
        Regroup4(old(out), head + " { " + TreeText(lhs) + " = " + TreeText(rhs[0]) + " " + OpSymbol(rhsCode) + " ",
          TreeText(rhs[1]), " }", "\n");
      } else {
        out := out + " }";
        out := out + "\n";
        Regroup3(old(out), head + " { ", " }", "\n");
      }
    }

    /** The three-operand case of `phi_debug_on_gimple_assign`, after its opening. */
    method BinaryAssign(rhsCode: Op, lhs: Expr, rhs1: Expr, rhs2: Expr)
      modifies this
      ensures out == old(out) + TreeText(lhs) + " = " + TreeText(rhs1) + " " + OpSymbol(rhsCode) + " "
        + TreeText(rhs2) + " }" + "\n"
    {
      Tree(lhs);
      out := out + " = ";
      Tree(rhs1);
      out := out + " ";
      out := out + OpSymbol(rhsCode);
      out := out + " ";
      Tree(rhs2);
      out := out + " }";
      out := out + "\n";
    }

    /** `phi_debug_on_gimple_call`: the callee, then the arguments in parentheses. */
    method OnCall(lhs: Option<Expr>, callee: string, args: seq<Expr>)
      modifies this
      ensures out == old(out) + CallText(codes, lhs, callee, args)
    {
      var head := StmtHead("GIMPLE_CALL", codes.call);
      out := out + head;
      out := out + " { ";
      AppendAssoc(old(out), head, " { ");
      ghost var mid := out;
      match lhs {
        case Some(l) =>
          Tree(l);
          out := out + " = ";
          AppendAssoc(mid, TreeText(l), " = ");
        case None =>
          AppendEmpty(mid);
      }
      out := out + callee;
      out := out + "(";
      Operands(args);
      out := out + ")";
      Regroup5(mid, CallLhsText(lhs), callee, "(", Join(TreeTexts(args), ", "), ")");
      out := out + " }";
      out := out + "\n";
      Regroup4(old(out), head + " { ", CallBody(lhs, callee, args), " }", "\n");
    }

    /** `phi_debug_on_gimple_cond`. */
    method OnCond(code: Op, lhs: Expr, rhs: Expr)
      modifies this
      ensures out == old(out) + CondText(codes, code, lhs, rhs)
    {
      var head := StmtHead("GIMPLE_COND", codes.cond);
      out := out + head;
      out := out + " { ";
      Tree(lhs);
      out := out + " ";
      out := out + OpSymbol(code);
      out := out + " ";
      Regroup6(old(out), head, " { ", TreeText(lhs), " ", OpSymbol(code), " ");
      Tree(rhs);
      out := out + " }";
      out := out + "\n";
      Regroup4(old(out), head + " { " + TreeText(lhs) + " " + OpSymbol(code) + " ", TreeText(rhs), " }", "\n");
    }

    /** `phi_debug_on_gimple_label`. */
    method OnLabel()
      modifies this
      ensures out == old(out) + LabelText(codes)
    {
      var head := StmtHead("GIMPLE_LABEL", codes.labelCode);
      out := out + head;
      out := out + " {";
      out := out + "}";
      out := out + "\n";
      Regroup4(old(out), head, " {", "}", "\n");
    }

    /** `phi_debug_on_gimple_return`. */
    method OnReturn()
      modifies this
      ensures out == old(out) + ReturnText(codes)
    {
      var head := StmtHead("GIMPLE_RETURN", codes.ret);
      out := out + head;
      out := out + " {";
      out := out + "}";
      out := out + "\n";
      Regroup4(old(out), head, " {", "}", "\n");
    }

    /** `phi_debug_on_unknown_stmt`. */
    method OnUnknown(code: nat)
      modifies this
      ensures out == old(out) + UnknownText(code)
    {
      var head := StmtHead("GIMPLE_UNKNOWN", code);
      out := out + head;
      out := out + " {}";
      out := out + "\n";
      Regroup3(old(out), head, " {}", "\n");
    }

    /** The `switch` of `phi_debug_statements` on `gimple_code`. */
    method Statement(st: Stmt)
      modifies this
      ensures out == old(out) + StmtText(codes, st)
    {
      match st {
        case Assign(rhsCode, lhs, rhs) => OnAssign(rhsCode, lhs, rhs);
        case Call(lhs, callee, args) => OnCall(lhs, callee, args);
        case Cond(code, lhs, rhs) => OnCond(code, lhs, rhs);
        case Label => OnLabel();
        case Return => OnReturn();
        case Other(code) => OnUnknown(code);
      }
    }

    /** `phi_debug_statements`: every statement of the block, in order. */
    method Statements(stmts: seq<Stmt>)
      modifies this
      ensures out == old(out) + StatementsText(codes, stmts)
    {
      var i := 0;
      while i < |stmts|
        invariant 0 <= i <= |stmts|
        invariant out == old(out) + StatementsText(codes, stmts[..i])
      {
        StatementsTextStep(codes, stmts, i);
        Statement(stmts[i]);
        AppendAssoc(old(out), StatementsText(codes, stmts[..i]), StmtText(codes, stmts[i]));
        i := i + 1;
      }
      assert stmts[..i] == stmts;
    }

    /** One round of the block loop of `phi_debug_function`. */
    method BlockSection(b: Block)
      requires BlockFits(b)
      modifies this
      ensures out == old(out) + BlockText(codes, b)
    {
      BlockId(b);
      out := out + " {";
      out := out + "\n";
      Statements(b.stmts);
      out := out + "\t";
      out := out + "}";
      out := out + "\n";
      Regroup7(old(out), BlockIdText(b), " {", "\n", StatementsText(codes, b.stmts), "\t", "}", "\n");
    }

    /** `phi_debug_function`: the report of one function. */
    method Report(f: Function)
      requires forall b :: b in f.blocks ==> BlockFits(b)
      modifies this
      ensures out == old(out) + FunctionText(codes, f)
    {
      out := out + "func: ";
      out := out + "\"";
      out := out + f.name;
      out := out + "\"";
      out := out + " {";
      out := out + "\n";
      Regroup6(old(out), "func: ", "\"", f.name, "\"", " {", "\n");
      ghost var opening := "func: " + "\"" + f.name + "\"" + " {" + "\n";
      var i := 0;
      while i < |f.blocks|
        invariant 0 <= i <= |f.blocks|
        invariant out == old(out) + opening + BlocksText(codes, f.blocks[..i])
      {
        BlocksTextStep(codes, f.blocks, i);
        BlockSection(f.blocks[i]);
        AppendAssoc(old(out) + opening, BlocksText(codes, f.blocks[..i]), BlockText(codes, f.blocks[i]));
        i := i + 1;
      }
      assert f.blocks[..i] == f.blocks;
      out := out + "}";
      out := out + "\n";
      out := out + "\n";
      Regroup5(old(out), opening, BlocksText(codes, f.blocks), "}", "\n", "\n");
    }
  }

  /** The sixteen writes of `TARGET_MEM_REF`, regrouped. */
  lemma TargetMemRegroup(o: string, b: string, off: string, index: string, step: string, index2: string)
    ensures o + "TMR(" + "BASE: " + b + ", " + "OFFSET: " + off + ", " + "STEP: " + index + ", "
      + "INDEX1: " + step + ", " + "INDEX2: " + index2 + " )"
      == o + ("TMR(" + "BASE: " + b + ", " + "OFFSET: " + off + ", " + "STEP: " + index + ", "
      + "INDEX1: " + step + ", " + "INDEX2: " + index2 + " )")
  {
    var first := "TMR(" + "BASE: " + b + ", " + "OFFSET: " + off + ", ";
    var second := first + "STEP: " + index + ", " + "INDEX1: " + step + ", ";
    Regroup7(o, "TMR(", "BASE: ", b, ", ", "OFFSET: ", off, ", ");
    Regroup7(o, first, "STEP: ", index, ", ", "INDEX1: ", step, ", ");
    Regroup4(o, second, "INDEX2: ", index2, " )");
  }
}
