/**
 * Client runs of the builder, showing what its contracts let a caller
 * conclude about the body it gets back.
 */
module Scenarios {
  import opened Wrappers
  import opened Idx
  import opened Ir
  import opened Builder

  /** One argument; block 0 copies the argument into a fresh local and returns. */
  method CopyArgumentAndReturn() returns (body: Body)
    ensures |body.locals| == 3 && |body.blocks| == 1
    ensures body.blocks[0].instructions ==
      [Instruction.Assign(Lvalue(Local.New(2), []), Rvalue.Operand(Operand.Copy(Lvalue(Local.New(1), []))))]
    ensures body.blocks[0].terminator == Some(Terminator.Return)
    ensures AllTerminated(body)
  {
    var b := new BodyBuilder(1);
    var entry := b.FreshBlock();
    var tmp := b.FreshLocal();
    var bb := b.BuilderForBlock(entry);
    bb.Assign(Lvalue(tmp, []), Rvalue.Operand(Operand.Copy(Lvalue(BodyBuilder.Arg(0), []))));
    var _ := bb.Ret();
    body := b.Build();
  }

  /** A call built from two `arg`s and a `set_rvp` carries exactly those, in order. */
  method CallWithTwoArguments(f: DefId) returns (body: Body)
    ensures |body.blocks| == 2
    ensures body.blocks[0].instructions == []
    ensures body.blocks[0].terminator == Some(Terminator.Call(
      Operand.Constant(Global(f)),
      [Operand.Copy(Lvalue(Local.New(1), [])), Operand.Move(Lvalue(Local.New(2), []))],
      Some(Lvalue(Local.New(0), [])),
      BasicBlock.New(1)))
    ensures body.blocks[1].terminator == Some(Terminator.Return)
  {
    var b := new BodyBuilder(2);
    var entry := b.FreshBlock();
    var exit := b.FreshBlock();
    var bb := b.BuilderForBlock(entry);
    var ops := [CallOp.Arg(Operand.Copy(Lvalue(BodyBuilder.Arg(0), []))),
                CallOp.Arg(Operand.Move(Lvalue(BodyBuilder.Arg(1), []))),
                CallOp.SetRvp(Lvalue(BodyBuilder.Rvp(), []))];
    ArgsOfAppend([ops[0], ops[1]], [ops[2]]);
    ArgsOfAppend([ops[0]], [ops[1]]);
    ArgsOfSingle(ops[0]);
    ArgsOfSingle(ops[1]);
    ArgsOfSingle(ops[2]);
    assert ops == [ops[0], ops[1]] + [ops[2]] && [ops[0], ops[1]] == [ops[0]] + [ops[1]];
    var _ := bb.Call(Operand.Constant(Global(f)), exit, ops);
    assert ArgsOf(ops) == [ops[0].arg, ops[1].arg];
    assert exit == BasicBlock.New(1) && exit.Index() == 1 && entry.Index() == 0;
    var xb := b.BuilderForBlock(exit);
    var _ := xb.Ret();
    body := b.Build();
  }

  /** `build` checks nothing: a block that was never terminated escapes. */
  method UnterminatedBlockEscapes() returns (body: Body)
    ensures |body.blocks| == 1 && body.blocks[0].terminator == None
    ensures !AllTerminated(body)
  {
    var b := new BodyBuilder(0);
    var _ := b.FreshBlock();
    body := b.Build();
  }

  /** A second block builder for a finished block replaces its terminator. */
  method TerminatorReplaced() returns (body: Body)
    ensures |body.blocks| == 1 && body.blocks[0].instructions == [Instruction.Nop]
    ensures body.blocks[0].terminator == Some(Terminator.Unreachable)
  {
    var b := new BodyBuilder(0);
    var entry := b.FreshBlock();
    var first := b.BuilderForBlock(entry);
    first.Nop();
    var _ := first.Ret();
    var second := b.BuilderForBlock(entry);
    var _ := second.Unreachable();
    body := b.Build();
  }
}
