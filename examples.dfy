/**
 * Concrete renderings: what the renderer prints for a few small IR
 * fragments, computed from the `Render` specification.
 */
module Examples {
  import opened Text
  import opened Gimple
  import opened Render

  function Var(name: string): Expr { VarDecl(Some(name)) }

  function Ssa(name: string, version: nat): Expr { SsaName(Some(name), version, NotPhi) }

  /** An entry block with no predecessors and two successors. */
  lemma EntryBlockHeader()
    ensures BlockIdText(Block(0, [], [1, 2], [])) == "\tbb: () -> (0) -> (1, 2)"
  {
    JoinSmall(", ", "1", "2");
    assert IntStrs([1, 2]) == ["1", "2"];
    assert IntStrs([]) == [];
  }

  /** A block with one predecessor. */
  lemma SinglePredecessorHeader()
    ensures BlockIdText(Block(3, [2], [], [])) == "\tbb: (2) -> (3) -> ()"
  {
    JoinSmall(", ", "2", "");
    assert IntStrs([2]) == ["2"];
    assert IntStrs([]) == [];
  }

  /** A three-operand assignment `w = x - y`. */
  lemma BinaryAssignLine(k: GimpleCodes)
    ensures StmtText(k, Assign(Minus, Var("w"), [Var("x"), Var("y")]))
         == StmtHead("GIMPLE_ASSIGN", k.assign) + " { w = x - y }\n"
  {
  }

  /** An assignment with four operands shows nothing between its braces. */
  lemma OtherArityAssignLine(k: GimpleCodes)
    ensures StmtText(k, Assign(Plus, Var("w"), [Var("x"), Var("y"), Var("z")]))
         == StmtHead("GIMPLE_ASSIGN", k.assign) + " {  }\n"
  {
  }

  /** A call without a stored value; the string constant stops at its NUL. */
  lemma PrintfCallLine(k: GimpleCodes)
    ensures StmtText(k, Call(None, "printf", [StringCst("hi\0junk"), IntegerCst(42)]))
         == StmtHead("GIMPLE_CALL", k.call) + " { printf(\"hi\", 42) }\n"
  {
    PrintfArgs();
    JoinSmall(", ", "\"hi\"", "42");
  }

  lemma PrintfArgs()
    ensures TreeTexts([StringCst("hi\0junk"), IntegerCst(42)]) == ["\"hi\"", "42"]
  {
    StopsAtNul();
    assert NatStr(42) == "42";
    assert TreeText(StringCst("hi\0junk")) == "\"hi\"";
    assert TreeText(IntegerCst(42)) == "42";
  }

  lemma StopsAtNul()
    ensures CString("hi\0junk") == "hi"
  {
    assert "hi\0junk"[1..] == "i\0junk";
    assert "i\0junk"[1..] == "\0junk";
    assert CString("i\0junk") == "i";
  }

  /** An SSA name defined by a PHI of two earlier versions. */
  lemma PhiName()
    ensures TreeText(SsaName(Some("x"), 3, Phi([Ssa("x", 1), Ssa("x", 2)])))
         == "(" + "x__v3" + " = GIMPLE_PHI(" + "x__v1, x__v2" + "))"
  {
    PhiArgs();
    JoinSmall(", ", "x__v1", "x__v2");
    assert NatStr(3) == "3";
    assert SsaLabel(Some("x"), 3) == "x__v3";
  }

  lemma PhiArgs()
    ensures TreeTexts([Ssa("x", 1), Ssa("x", 2)]) == ["x__v1", "x__v2"]
  {
    assert NatStr(1) == "1" && NatStr(2) == "2";
    assert TreeText(Ssa("x", 1)) == "x__v1";
    assert TreeText(Ssa("x", 2)) == "x__v2";
  }

  /**
   * A loop counter `i_1 = PHI(0, i_2)` whose back edge carries `i_2 = i_1 + 1`:
   * `i_2` is not defined by a PHI, so the expansion stops at its label.
   */
  lemma LoopCounterRenders()
    ensures TreeText(SsaName(Some("i"), 1, Phi([IntegerCst(0), Ssa("i", 2)])))
         == "(" + "i__v1" + " = GIMPLE_PHI(" + "0, i__v2" + "))"
  {
    LoopCounterArgs();
    JoinSmall(", ", "0", "i__v2");
    assert NatStr(1) == "1";
    assert SsaLabel(Some("i"), 1) == "i__v1";
  }

  lemma LoopCounterArgs()
    ensures TreeTexts([IntegerCst(0), Ssa("i", 2)]) == ["0", "i__v2"]
  {
    assert NatStr(0) == "0" && NatStr(2) == "2";
    assert TreeText(IntegerCst(0)) == "0";
    assert TreeText(Ssa("i", 2)) == "i__v2";
  }

  /** `MEM_REF` prints its offset before its address. */
  lemma MemRefOrder()
    ensures TreeText(MemRef(Var("p"), IntegerCst(0))) == "((typeof(0))p)"
  {
  }

  /** A tree code the renderer has no case for. */
  lemma UnknownTreeCode()
    ensures TreeText(Unknown(42)) == "unk_tree_code(42)"
  {
    assert NatStr(42) == "42";
  }

  /** An operator code `phi_debug_op` has no case for. */
  lemma UnknownOperator()
    ensures OpSymbol(OtherCode(77)) == "?(77)?"
  {
    assert NatStr(77) == "77";
  }

  /** An anonymous label declaration keeps its colon. */
  lemma AnonymousLabel()
    ensures TreeText(LabelDecl(None)) == "unk_label_decl:"
  {
  }
}
