/**
 * The line structure of the report: as long as no name or string constant
 * in the IR contains a newline, every tree prints on one line, every
 * statement prints exactly one line, and a function's report has one line
 * for its opening, two per block plus one per statement, and two closing
 * lines.
 */
module Layout {
  import opened Text
  import opened Gimple
  import opened Render

  /** A name `DECL_NAME` or `SSA_NAME_IDENTIFIER` may supply, newline-free. */
  predicate PlainName(name: Option<string>)
  {
    name.Some? ==> NoNewline(name.value)
  }

  /** Every name and string constant reachable in `e` is newline-free. */
  predicate PlainTree(e: Expr)
    decreases e
  {
    match e
    case StringCst(text) => NoNewline(CString(text))
    case LabelDecl(name) => PlainName(name)
    case FieldDecl(name) => PlainName(name)
    case VarDecl(name) => PlainName(name)
    case ConstDecl(name) => PlainName(name)
    case ComponentRef(a, f) => PlainTree(a) && PlainTree(f)
    case BitFieldRef(b, size, pos) => PlainTree(b) && PlainTree(size) && PlainTree(pos)
    case ArrayRef(a, i) => PlainTree(a) && PlainTree(i)
    case ArrayRangeRef(a, index, op2) => PlainTree(a) && PlainTree(index) && PlainTree(op2)
    case IndirectRef(p) => PlainTree(p)
    case AddrExpr(x) => PlainTree(x)
    case TargetMemRef(b, off, index, step, index2) =>
      PlainTree(b) && PlainTree(off) && PlainTree(index) && PlainTree(step) && PlainTree(index2)
    case MemRef(address, offset) => PlainTree(address) && PlainTree(offset)
    case SsaName(identifier, _, NotPhi) => PlainName(identifier)
    case SsaName(identifier, _, Phi(args)) =>
      PlainName(identifier) && forall i :: 0 <= i < |args| ==> PlainTree(args[i])
    case _ => true
  }

  /** A tree prints on one line. */
  lemma {:induction false} TreeOneLine(e: Expr)
    requires PlainTree(e)
    ensures NoNewline(TreeText(e))
    decreases e, 1
  {
    match e
    case ComponentRef(a, f) => ComponentOneLine(a, f);
    case BitFieldRef(b, size, pos) => BitFieldOneLine(b, size, pos);
    case ArrayRef(a, i) => ArrayOneLine(a, i);
    case ArrayRangeRef(a, index, op2) => ArrayRangeOneLine(a, index, op2);
    case IndirectRef(p) => TreeOneLine(p);
    case AddrExpr(x) => TreeOneLine(x);
    case TargetMemRef(b, off, index, step, index2) => TargetMemOneLine(b, off, index, step, index2);
    case MemRef(address, offset) => MemOneLine(address, offset);
    case SsaName(identifier, version, Phi(args)) => PhiOneLine(identifier, version, args);
    case _ => LeafOneLine(e);
  }

  /** The trees without operands that print a name, a number or a string. */
  lemma LeafOneLine(e: Expr)
    requires PlainTree(e)
    requires !(e.ComponentRef? || e.BitFieldRef? || e.ArrayRef? || e.ArrayRangeRef? || e.IndirectRef?
      || e.AddrExpr? || e.TargetMemRef? || e.MemRef? || (e.SsaName? && e.def.Phi?))
    ensures NoNewline(TreeText(e))
  {
    if e.IntegerCst? {
      IntStrNoNewline(e.low);
    } else if e.SsaName? {
      SsaLabelOneLine(e.identifier, e.version);
    } else if e.Unknown? {
      IntStrNoNewline(e.code);
    } else if e.RealCst? || e.FixedCst? || e.ComplexCst? || e.VectorCst? || e.Constructor? {
      PlaceholderOneLine(e);
    } else {
      DeclOneLine(e);
    }
  }

  /** The trees printed as a fixed word. */
  lemma PlaceholderOneLine(e: Expr)
    requires e.RealCst? || e.FixedCst? || e.ComplexCst? || e.VectorCst? || e.Constructor?
    ensures NoNewline(TreeText(e))
  {
  }

  /** String constants and declarations. */
  lemma DeclOneLine(e: Expr)
    requires PlainTree(e)
    requires e.StringCst? || e.LabelDecl? || e.FieldDecl? || e.VarDecl? || e.ConstDecl?
    ensures NoNewline(TreeText(e))
  {
  }

  lemma {:induction false} ComponentOneLine(a: Expr, f: Expr)
    requires PlainTree(ComponentRef(a, f))
    ensures NoNewline(TreeText(ComponentRef(a, f)))
    decreases ComponentRef(a, f), 0
  {
    TreeOneLine(a); TreeOneLine(f);
  }

  lemma {:induction false} ArrayOneLine(a: Expr, i: Expr)
    requires PlainTree(ArrayRef(a, i))
    ensures NoNewline(TreeText(ArrayRef(a, i)))
    decreases ArrayRef(a, i), 0
  {
    TreeOneLine(a); TreeOneLine(i);
  }

  lemma {:induction false} BitFieldOneLine(b: Expr, size: Expr, pos: Expr)
    requires PlainTree(BitFieldRef(b, size, pos))
    ensures NoNewline(TreeText(BitFieldRef(b, size, pos)))
    decreases BitFieldRef(b, size, pos), 0
  {
    TreeOneLine(b); TreeOneLine(size); TreeOneLine(pos);
    BitFieldLine(TreeText(b), TreeText(size), TreeText(pos));
  }

  lemma BitFieldLine(b: string, size: string, pos: string)
    requires NoNewline(b) && NoNewline(size) && NoNewline(pos)
    ensures NoNewline(b + "->" + "(" + size + " : " + pos + ")")
  {
  }

  lemma {:induction false} ArrayRangeOneLine(a: Expr, index: Expr, op2: Expr)
    requires PlainTree(ArrayRangeRef(a, index, op2))
    ensures NoNewline(TreeText(ArrayRangeRef(a, index, op2)))
    decreases ArrayRangeRef(a, index, op2), 0
  {
    TreeOneLine(a); TreeOneLine(index); TreeOneLine(op2);
  }

  lemma {:induction false} TargetMemOneLine(b: Expr, off: Expr, index: Expr, step: Expr, index2: Expr)
    requires PlainTree(TargetMemRef(b, off, index, step, index2))
    ensures NoNewline(TreeText(TargetMemRef(b, off, index, step, index2)))
    decreases TargetMemRef(b, off, index, step, index2), 0
  {
    TreeOneLine(b); TreeOneLine(off); TreeOneLine(index); TreeOneLine(step); TreeOneLine(index2);
    TargetMemLine(TreeText(b), TreeText(off), TreeText(index), TreeText(step), TreeText(index2));
  }

  lemma TargetMemLine(b: string, off: string, index: string, step: string, index2: string)
    requires NoNewline(b) && NoNewline(off) && NoNewline(index) && NoNewline(step) && NoNewline(index2)
    ensures NoNewline("TMR(" + "BASE: " + b + ", " + "OFFSET: " + off + ", " + "STEP: " + index + ", "
      + "INDEX1: " + step + ", " + "INDEX2: " + index2 + " )")
  {
  }

  lemma {:induction false} MemOneLine(address: Expr, offset: Expr)
    requires PlainTree(MemRef(address, offset))
    ensures NoNewline(TreeText(MemRef(address, offset)))
    decreases MemRef(address, offset), 0
  {
    TreeOneLine(address); TreeOneLine(offset);
    MemLine(TreeText(address), TreeText(offset));
  }

  lemma MemLine(address: string, offset: string)
    requires NoNewline(address) && NoNewline(offset)
    ensures NoNewline("((typeof(" + offset + "))" + address + ")")
  {
  }

  lemma SsaLabelOneLine(identifier: Option<string>, version: nat)
    requires PlainName(identifier)
    ensures NoNewline(SsaLabel(identifier, version))
  {
    IntStrNoNewline(version);
  }

  lemma {:induction false} PhiOneLine(identifier: Option<string>, version: nat, args: seq<Expr>)
    requires PlainTree(SsaName(identifier, version, Phi(args)))
    ensures NoNewline(TreeText(SsaName(identifier, version, Phi(args))))
    decreases SsaName(identifier, version, Phi(args)), 0
  {
    var texts := TreeTexts(args);
    forall i | 0 <= i < |texts|
      ensures NoNewline(texts[i])
    {
      TreeOneLine(args[i]);
    }
    JoinNoNewline(texts, ", ");
    SsaLabelOneLine(identifier, version);
  }
  // -------------------------------------------------------------- statements

  /** Every tree of `st` is plain, and so is a call's callee name. */
  predicate PlainStmt(st: Stmt)
  {
    match st
    case Assign(_, lhs, rhs) => PlainTree(lhs) && forall i :: 0 <= i < |rhs| ==> PlainTree(rhs[i])
    case Call(lhs, callee, args) =>
      (lhs.Some? ==> PlainTree(lhs.value)) && NoNewline(callee)
      && forall i :: 0 <= i < |args| ==> PlainTree(args[i])
    case Cond(_, lhs, rhs) => PlainTree(lhs) && PlainTree(rhs)
    case _ => true
  }

  lemma LineOf(x: string)
    requires NoNewline(x)
    ensures IsLine(x + "\n")
  {
    assert (x + "\n")[..|x|] == x;
  }

  lemma StmtHeadOneLine(kind: string, code: nat)
    requires NoNewline(kind)
    ensures NoNewline(StmtHead(kind, code))
  {
    IntStrNoNewline(code);
  }

  lemma OpSymbolOneLine(op: Op)
    ensures NoNewline(OpSymbol(op))
  {
    if op.OtherCode? {
      IntStrNoNewline(op.code);
    }
  }

  lemma ArgsOneLine(args: seq<Expr>)
    requires forall i :: 0 <= i < |args| ==> PlainTree(args[i])
    ensures NoNewline(Join(TreeTexts(args), ", "))
  {
    var texts := TreeTexts(args);
    forall i | 0 <= i < |texts|
      ensures NoNewline(texts[i])
    {
      TreeOneLine(args[i]);
    }
    JoinNoNewline(texts, ", ");
  }

  lemma AssignLine(k: GimpleCodes, rhsCode: Op, lhs: Expr, rhs: seq<Expr>)
    requires PlainStmt(Assign(rhsCode, lhs, rhs))
    ensures IsLine(AssignText(k, rhsCode, lhs, rhs))
  {
    var head := StmtHead("GIMPLE_ASSIGN", k.assign) + " { ";
    StmtHeadOneLine("GIMPLE_ASSIGN", k.assign);
    if |rhs| + 1 == 2 {
      TreeOneLine(lhs);
      TreeOneLine(rhs[0]);
      LineOf(head + TreeText(lhs) + " = " + TreeText(rhs[0]) + " }");
    } else if |rhs| + 1 == 3 {
      TreeOneLine(lhs);
      TreeOneLine(rhs[0]);
      TreeOneLine(rhs[1]);
      OpSymbolOneLine(rhsCode);
      LineOf(head + TreeText(lhs) + " = " + TreeText(rhs[0]) + " " + OpSymbol(rhsCode) + " "
        + TreeText(rhs[1]) + " }");
    } else {
      LineOf(head + " }");
    }
  }

  lemma CallLine(k: GimpleCodes, lhs: Option<Expr>, callee: string, args: seq<Expr>)
    requires PlainStmt(Call(lhs, callee, args))
    ensures IsLine(CallText(k, lhs, callee, args))
  {
    StmtHeadOneLine("GIMPLE_CALL", k.call);
    if lhs.Some? {
      TreeOneLine(lhs.value);
    }
    ArgsOneLine(args);
    LineOf(StmtHead("GIMPLE_CALL", k.call) + " { " + CallBody(lhs, callee, args) + " }");
  }

  lemma CondLine(k: GimpleCodes, code: Op, lhs: Expr, rhs: Expr)
    requires PlainTree(lhs) && PlainTree(rhs)
    ensures IsLine(CondText(k, code, lhs, rhs))
  {
    StmtHeadOneLine("GIMPLE_COND", k.cond);
    TreeOneLine(lhs);
    TreeOneLine(rhs);
    OpSymbolOneLine(code);
    LineOf(StmtHead("GIMPLE_COND", k.cond) + " { " + TreeText(lhs) + " " + OpSymbol(code) + " "
      + TreeText(rhs) + " }");
  }

  /** Every statement prints exactly one line. */
  lemma StmtIsLine(k: GimpleCodes, st: Stmt)
    requires PlainStmt(st)
    ensures IsLine(StmtText(k, st))
  {
    match st
    case Assign(rhsCode, lhs, rhs) => AssignLine(k, rhsCode, lhs, rhs);
    case Call(lhs, callee, args) => CallLine(k, lhs, callee, args);
    case Cond(code, lhs, rhs) => CondLine(k, code, lhs, rhs);
    case Label =>
      StmtHeadOneLine("GIMPLE_LABEL", k.labelCode);
      LineOf(StmtHead("GIMPLE_LABEL", k.labelCode) + " {" + "}");
    case Return =>
      StmtHeadOneLine("GIMPLE_RETURN", k.ret);
      LineOf(StmtHead("GIMPLE_RETURN", k.ret) + " {" + "}");
    case Other(code) =>
      StmtHeadOneLine("GIMPLE_UNKNOWN", code);
      LineOf(StmtHead("GIMPLE_UNKNOWN", code) + " {}");
  }

  /** A block's statements take one line each. */
  lemma {:induction false} StatementsLines(k: GimpleCodes, ss: seq<Stmt>)
    requires forall i :: 0 <= i < |ss| ==> PlainStmt(ss[i])
    ensures NewlineCount(StatementsText(k, ss)) == |ss|
    decreases |ss|
  {
    if |ss| > 0 {
      var init := ss[..|ss| - 1];
      assert forall i :: 0 <= i < |init| ==> init[i] == ss[i];
      StatementsLines(k, init);
      StmtIsLine(k, ss[|ss| - 1]);
      IsLineCount(StmtText(k, ss[|ss| - 1]));
      NewlineCountAppend(StatementsText(k, init), StmtText(k, ss[|ss| - 1]));
    }
  }

  // ------------------------------------------------------- blocks, function

  predicate PlainBlock(b: Block)
  {
    forall i :: 0 <= i < |b.stmts| ==> PlainStmt(b.stmts[i])
  }

  lemma EdgesOneLine(indices: seq<int>)
    ensures NoNewline(Join(IntStrs(indices), ", "))
  {
    forall i | 0 <= i < |indices|
      ensures NoNewline(IntStrs(indices)[i])
    {
      IntStrNoNewline(indices[i]);
    }
    JoinNoNewline(IntStrs(indices), ", ");
  }

  lemma BlockIdOneLine(b: Block)
    ensures NoNewline(BlockIdText(b))
  {
    EdgesOneLine(b.preds);
    EdgesOneLine(b.succs);
    IntStrNoNewline(b.index);
    HeaderLine(Join(IntStrs(b.preds), ", "), IntStr(b.index), Join(IntStrs(b.succs), ", "));
  }

  lemma HeaderLine(src: string, index: string, dst: string)
    requires NoNewline(src) && NoNewline(index) && NoNewline(dst)
    ensures NoNewline("\t" + "bb: " + "(" + src + ")" + " -> " + "(" + index + ")" + " -> " + "(" + dst + ")")
  {
  }

  /** The lines around a block's statements: the header line and the closing brace. */
  lemma SectionCount(id: string, body: string)
    requires NoNewline(id)
    ensures NewlineCount(id + " {" + "\n" + body + "\t" + "}" + "\n") == NewlineCount(body) + 2
  {
    LineOf(id + " {");
    IsLineCount(id + " {" + "\n");
    LineOf("\t" + "}");
    IsLineCount("\t" + "}" + "\n");
    NewlineCountAppend(id + " {" + "\n", body);
    NewlineCountAppend(id + " {" + "\n" + body, "\t" + "}" + "\n");
    Regroup3(id + " {" + "\n" + body, "\t", "}", "\n");
  }

  /** A block's section: its header line, one line per statement, its closing line. */
  lemma BlockLines(k: GimpleCodes, b: Block)
    requires PlainBlock(b)
    ensures NewlineCount(BlockText(k, b)) == |b.stmts| + 2
  {
    BlockIdOneLine(b);
    StatementsLines(k, b.stmts);
    SectionCount(BlockIdText(b), StatementsText(k, b.stmts));
  }

  /** The lines the sections of `bs` take together. */
  function SectionLines(bs: seq<Block>): nat
    decreases |bs|
  {
    if |bs| == 0 then 0 else SectionLines(bs[..|bs| - 1]) + |bs[|bs| - 1].stmts| + 2
  }

  lemma {:induction false} BlocksLines(k: GimpleCodes, bs: seq<Block>)
    requires forall i :: 0 <= i < |bs| ==> PlainBlock(bs[i])
    ensures NewlineCount(BlocksText(k, bs)) == SectionLines(bs)
    decreases |bs|
  {
    if |bs| > 0 {
      var init := bs[..|bs| - 1];
      assert forall i :: 0 <= i < |init| ==> init[i] == bs[i];
      BlocksLines(k, init);
      BlockLines(k, bs[|bs| - 1]);
      NewlineCountAppend(BlocksText(k, init), BlockText(k, bs[|bs| - 1]));
    }
  }

  /** The report frame: the opening line, then the blocks, then the closing brace and a blank line. */
  lemma FrameCount(name: string, body: string)
    requires NoNewline(name)
    ensures NewlineCount("func: " + "\"" + name + "\"" + " {" + "\n" + body + "}" + "\n" + "\n")
         == NewlineCount(body) + 3
  {
    var opening := "func: " + "\"" + name + "\"" + " {";
    LineOf(opening);
    IsLineCount(opening + "\n");
    LineOf("}");
    IsLineCount("}" + "\n");
    LineOf("");
    IsLineCount("" + "\n");
    assert "" + "\n" == "\n";
    NewlineCountAppend(opening + "\n", body);
    NewlineCountAppend(opening + "\n" + body, "}" + "\n");
    NewlineCountAppend(opening + "\n" + body + "}" + "\n", "\n");
    AppendAssoc(opening + "\n" + body, "}", "\n");
  }

  /**
   * The line count of a function's report: three lines of frame, two per
   * block and one per statement.
   */
  lemma ReportLines(k: GimpleCodes, f: Function)
    requires NoNewline(f.name)
    requires forall i :: 0 <= i < |f.blocks| ==> PlainBlock(f.blocks[i])
    ensures NewlineCount(FunctionText(k, f)) == SectionLines(f.blocks) + 3
  {
    BlocksLines(k, f.blocks);
    FrameCount(f.name, BlocksText(k, f.blocks));
  }
}
