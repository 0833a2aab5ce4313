/**
 * The body builder (src/ir/builder.rs): a function-level builder that owns
 * the body under construction, block builders that append to one block or
 * set its terminator, and the call and switch sub-builders that accumulate
 * a terminator's operands.
 */
module Builder {
  import opened Wrappers
  import opened Idx
  import opened Ir

  /** The effect of `nop`/`assign` on the blocks: block `i` gained `ins` at the
    * end of its instruction list; its terminator and every other block are
    * as before. */
  ghost predicate InstructionAppended(before: seq<BasicBlockData>, after: seq<BasicBlockData>, i: nat, ins: Instruction)
  {
    && i < |before| && |after| == |before|
    && after[i].instructions == before[i].instructions + [ins]
    && after[i].terminator == before[i].terminator
    && forall k :: 0 <= k < |before| && k != i ==> after[k] == before[k]
  }

  /** The effect of a terminal operation on the blocks: block `i` now ends in
    * `t`, whatever it ended in before; its instructions and every other block
    * are as before. */
  ghost predicate TerminatorSet(before: seq<BasicBlockData>, after: seq<BasicBlockData>, i: nat, t: Terminator)
  {
    && i < |before| && |after| == |before|
    && after[i].instructions == before[i].instructions
    && after[i].terminator == Some(t)
    && forall k :: 0 <= k < |before| && k != i ==> after[k] == before[k]
  }

  /** Nothing makes a terminator final: terminating a block again replaces it. */
  lemma TerminatorOverwritten(a: seq<BasicBlockData>, b: seq<BasicBlockData>, c: seq<BasicBlockData>, i: nat, t1: Terminator, t2: Terminator)
    requires TerminatorSet(a, b, i, t1) && TerminatorSet(b, c, i, t2)
    ensures TerminatorSet(a, c, i, t2)
  {
  }

  /** One step of the closure passed to `call`: a `CallBuilder` operation. */
  datatype CallOp = Arg(arg: Operand) | ExtendArgs(more: seq<Operand>) | SetRvp(rvp: Lvalue)

  /** The operands a run of call-builder operations contributes, in order. */
  function ArgsOf(ops: seq<CallOp>): seq<Operand>
  {
    if ops == [] then []
    else
      ArgsOf(ops[..|ops| - 1]) +
      match ops[|ops| - 1]
      case Arg(a) => [a]
      case ExtendArgs(more) => more
      case SetRvp(_) => []
  }

  /** The result place a run of call-builder operations leaves behind. */
  function RvpOf(ops: seq<CallOp>): Option<Lvalue>
  {
    if ops == [] then None
    else if ops[|ops| - 1].SetRvp? then Some(ops[|ops| - 1].rvp)
    else RvpOf(ops[..|ops| - 1])
  }

  /** Arguments accumulate by concatenation: splitting the operations splits
    * the argument list at the same point. */
  lemma {:induction false} ArgsOfAppend(xs: seq<CallOp>, ys: seq<CallOp>)
    ensures ArgsOf(xs + ys) == ArgsOf(xs) + ArgsOf(ys)
  {
    if ys != [] {
      var ys' := ys[..|ys| - 1];
      assert (xs + ys)[..|xs + ys| - 1] == xs + ys';
      ArgsOfAppend(xs, ys');
    } else {
      assert xs + ys == xs;
    }
  }

  /** The argument list is the arguments of each operation, concatenated. */
  lemma {:induction false} ArgsOfSingle(op: CallOp)
    ensures ArgsOf([op]) == match op
      case Arg(a) => [a]
      case ExtendArgs(more) => more
      case SetRvp(_) => []
  {
    assert [op][..0] == [];
  }

  /** No result place is recorded unless `set_rvp` was called. */
  lemma {:induction false} RvpOfNone(ops: seq<CallOp>)
    ensures RvpOf(ops) == None <==> forall k :: 0 <= k < |ops| ==> !ops[k].SetRvp?
  {
    if ops != [] {
      var p := ops[..|ops| - 1];
      RvpOfNone(p);
      assert forall k :: 0 <= k < |p| ==> p[k] == ops[k];
    }
  }

  /** The last `set_rvp` wins. */
  lemma {:induction false} RvpOfLast(ops: seq<CallOp>, i: nat)
    requires i < |ops| && ops[i].SetRvp?
    requires forall k :: i < k < |ops| ==> !ops[k].SetRvp?
    ensures RvpOf(ops) == Some(ops[i].rvp)
  {
    if i < |ops| - 1 {
      var p := ops[..|ops| - 1];
      assert forall k :: i < k < |p| ==> p[k] == ops[k];
      RvpOfLast(p, i);
    }
  }

  /** `BodyBuilder`: owns the body under construction. */
  class BodyBuilder {
    const blocks: IdxVec<BasicBlockData>
    const locals: IdxVec<()>

    /** `BodyBuilder::new(args)`: the return place and one slot per argument, no blocks. */
    constructor (args: nat)
      ensures fresh(blocks) && fresh(locals)
      ensures blocks.raw == [] && |locals.raw| == args + 1
    {
      var l := new IdxVec<()>();
      var _ := l.Push(());
      for i := 0 to args
        invariant |l.raw| == i + 1
      {
        var _ := l.Push(());
      }
      locals := l;
      blocks := new IdxVec<BasicBlockData>();
    }

    /** `rvp`: the return-value place is local 0. */
    static function Rvp(): (l: Local)
      ensures l.Index() == 0
    {
      Local.New(0)
    }

    /** `arg(n)`: argument `n` is local `1 + n`, unchecked against the argument count. */
    static function Arg(n: nat): (l: Local)
      ensures l.Index() == (n + 1) % U32_MODULUS
      ensures n + 1 < U32_MODULUS ==> l.Index() == n + 1
    {
      Local.New(1 + n)
    }

    /** Argument places are pairwise distinct and never the return place,
      * as long as `1 + n` fits the 32-bit payload. */
    static lemma ArgDistinct(m: nat, n: nat)
      requires m + 1 < U32_MODULUS && n + 1 < U32_MODULUS
      ensures Arg(m) != Rvp()
      ensures Arg(m) == Arg(n) <==> m == n
    {
    }

    /** Past that, the truncating cast wraps argument 2^32 - 1 onto the return place. */
    static lemma ArgWrapsOntoRvp()
      ensures Arg(U32_MODULUS - 1) == Rvp()
    {
    }

    /** `fresh_local`: the next local slot; blocks are untouched. */
    method FreshLocal() returns (l: Local)
      modifies locals
      ensures locals.raw == old(locals.raw) + [()]
      ensures l == Local.New(|old(locals.raw)|)
      ensures blocks.raw == old(blocks.raw)
    {
      var i := locals.Push(());
      l := Local(i);
    }

    /** `fresh_block`: appends an empty, unterminated block; locals are untouched. */
    method FreshBlock() returns (b: BasicBlock)
      modifies blocks
      ensures blocks.raw == old(blocks.raw) + [BasicBlockData([], None)]
      ensures b == BasicBlock.New(|old(blocks.raw)|)
      ensures locals.raw == old(locals.raw)
    {
      var i := blocks.Push(BasicBlockData([], None));
      b := BasicBlock(i);
    }

    /** `builder_for_block`: a block builder for any block, even one built before. */
    method BuilderForBlock(b: BasicBlock) returns (bb: BlockBuilder)
      ensures fresh(bb) && bb.body == this && bb.basicBlock == b && !bb.finished
    {
      bb := new BlockBuilder(this, b);
    }

    /** `build`: hands out what was built, terminated or not. */
    method Build() returns (body: Body)
      ensures body.blocks == blocks.raw && body.locals == locals.raw
    {
      body := Body(blocks.raw, locals.raw);
    }
  }

  /** `BlockBuilder`: edits one block of the body. Terminal operations consume
    * it; `finished` records that. */
  class BlockBuilder {
    const body: BodyBuilder
    const basicBlock: BasicBlock
    ghost var finished: bool

    constructor (body: BodyBuilder, basicBlock: BasicBlock)
      ensures this.body == body && this.basicBlock == basicBlock && !finished
    {
      this.body := body;
      this.basicBlock := basicBlock;
      finished := false;
    }

    /** `block_data_mut().instructions.push(ins)`. */
    method PushInstruction(ins: Instruction)
      requires basicBlock.Index() < |body.blocks.raw|
      modifies body.blocks
      ensures InstructionAppended(old(body.blocks.raw), body.blocks.raw, basicBlock.Index(), ins)
      ensures body.locals.raw == old(body.locals.raw)
    {
      var data := body.blocks.At(basicBlock.private);
      body.blocks.Set(basicBlock.private, data.(instructions := data.instructions + [ins]));
    }

    /** `block_data_mut().terminator = Some(t)`. */
    method SetTerminator(t: Terminator)
      requires basicBlock.Index() < |body.blocks.raw|
      modifies body.blocks
      ensures TerminatorSet(old(body.blocks.raw), body.blocks.raw, basicBlock.Index(), t)
      ensures body.locals.raw == old(body.locals.raw)
    {
      var data := body.blocks.At(basicBlock.private);
      body.blocks.Set(basicBlock.private, data.(terminator := Some(t)));
    }

    /** `nop`: appends a `Nop`. */
    method Nop()
      requires !finished
      requires basicBlock.Index() < |body.blocks.raw|
      modifies body.blocks
      ensures InstructionAppended(old(body.blocks.raw), body.blocks.raw, basicBlock.Index(), Instruction.Nop)
      ensures body.locals.raw == old(body.locals.raw)
    {
      PushInstruction(Instruction.Nop);
    }

    /** `assign`: appends an assignment of `rvalue` to `lvalue`. */
    method Assign(lvalue: Lvalue, rvalue: Rvalue)
      requires !finished
      requires basicBlock.Index() < |body.blocks.raw|
      modifies body.blocks
      ensures InstructionAppended(old(body.blocks.raw), body.blocks.raw, basicBlock.Index(), Instruction.Assign(lvalue, rvalue))
      ensures body.locals.raw == old(body.locals.raw)
    {
      PushInstruction(Instruction.Assign(lvalue, rvalue));
    }

    /** `ret`: ends the block with `Return`. */
    method Ret() returns (b: BasicBlock)
      requires !finished
      requires basicBlock.Index() < |body.blocks.raw|
      modifies this, body.blocks
      ensures finished && b == basicBlock
      ensures TerminatorSet(old(body.blocks.raw), body.blocks.raw, basicBlock.Index(), Terminator.Return)
      ensures body.locals.raw == old(body.locals.raw)
    {
      SetTerminator(Terminator.Return);
      finished := true;
      b := basicBlock;
    }

    /** `unreachable`: ends the block with `Unreachable`. */
    method Unreachable() returns (b: BasicBlock)
      requires !finished
      requires basicBlock.Index() < |body.blocks.raw|
      modifies this, body.blocks
      ensures finished && b == basicBlock
      ensures TerminatorSet(old(body.blocks.raw), body.blocks.raw, basicBlock.Index(), Terminator.Unreachable)
      ensures body.locals.raw == old(body.locals.raw)
    {
      SetTerminator(Terminator.Unreachable);
      finished := true;
      b := basicBlock;
    }

    /** `goto`: ends the block with a jump to `target`. */
    method Goto(target: BasicBlock) returns (b: BasicBlock)
      requires !finished
      requires basicBlock.Index() < |body.blocks.raw|
      modifies this, body.blocks
      ensures finished && b == basicBlock
      ensures TerminatorSet(old(body.blocks.raw), body.blocks.raw, basicBlock.Index(), Terminator.Goto(target))
      ensures body.locals.raw == old(body.locals.raw)
    {
      SetTerminator(Terminator.Goto(target));
      finished := true;
      b := basicBlock;
    }

    /** `call`: runs the call-builder operations in order, then ends the block
      * with the call they describe. */
    method Call(target: Operand, goto: BasicBlock, ops: seq<CallOp>) returns (b: BasicBlock)
      requires !finished
      requires basicBlock.Index() < |body.blocks.raw|
      modifies this, body.blocks
      ensures finished && b == basicBlock
      ensures TerminatorSet(old(body.blocks.raw), body.blocks.raw, basicBlock.Index(),
                            Terminator.Call(target, ArgsOf(ops), RvpOf(ops), goto))
      ensures body.locals.raw == old(body.locals.raw)
    {
      var cb := new CallBuilder(target, goto);
      for i := 0 to |ops|
        invariant cb.target == target && cb.goto == goto
        invariant cb.args == ArgsOf(ops[..i]) && cb.rvp == RvpOf(ops[..i])
        invariant body.blocks.raw == old(body.blocks.raw) && body.locals.raw == old(body.locals.raw)
      {
        assert ops[..i + 1][..i] == ops[..i];
        ArgsOfSingle(ops[i]);
        cb.Apply(ops[i]);
      }
      assert ops[..|ops|] == ops;
      SetTerminator(cb.Build());
      finished := true;
      b := basicBlock;
    }
  }

  /** `CallBuilder`: accumulates the arguments and result place of a call. */
  class CallBuilder {
    const target: Operand
    const goto: BasicBlock
    var args: seq<Operand>
    var rvp: Option<Lvalue>

    constructor (target: Operand, goto: BasicBlock)
      ensures this.target == target && this.goto == goto && args == [] && rvp == None
    {
      this.target := target;
      this.goto := goto;
      args := [];
      rvp := None;
    }

    /** `arg`: one more argument at the end. */
    method Arg(arg: Operand)
      modifies this
      ensures args == old(args) + [arg] && rvp == old(rvp)
    {
      args := args + [arg];
    }

    /** `extend_args`: several more arguments at the end, in their order. */
    method ExtendArgs(more: seq<Operand>)
      modifies this
      ensures args == old(args) + more && rvp == old(rvp)
    {
      args := args + more;
    }

    /** `set_rvp`: records the result place, replacing an earlier one. */
    method SetRvp(lv: Lvalue)
      modifies this
      ensures args == old(args) && rvp == Some(lv)
    {
      rvp := Some(lv);
    }

    /** One step of the closure: extends the state as `ArgsOf`/`RvpOf` describe. */
    method Apply(op: CallOp)
      modifies this
      ensures args == old(args) + ArgsOf([op])
      ensures rvp == (if op.SetRvp? then Some(op.rvp) else old(rvp))
    {
      ArgsOfSingle(op);
      match op
      case Arg(a) => Arg(a);
      case ExtendArgs(more) => ExtendArgs(more);
      case SetRvp(lv) => SetRvp(lv);
    }

    /** `build`: the call terminator. */
    function Build(): (t: Terminator)
      reads this
      ensures t.Call? && t.target == target && t.args == args && t.rvp == rvp && t.goto == goto
      ensures Successors(t) == [goto]
    {
      Terminator.Call(target, args, rvp, goto)
    }
  }

  /** `SwitchBuilder`: accumulates the cases of a switch. No operation of the
    * block builder creates one. */
  class SwitchBuilder {
    const source: Operand
    var cases: seq<(U64, BasicBlock)>

    constructor (source: Operand)
      ensures this.source == source && cases == []
    {
      this.source := source;
      cases := [];
    }

    /** `case`: one more case at the end. */
    method Case(key: U64, target: BasicBlock)
      modifies this
      ensures cases == old(cases) + [(key, target)]
    {
      cases := cases + [(key, target)];
    }

    /** `extend_cases`: several more cases at the end, in their order. */
    method ExtendCases(more: seq<(U64, BasicBlock)>)
      modifies this
      ensures cases == old(cases) + more
    {
      cases := cases + more;
    }

    /** `build`: the switch terminator; its successors are the case targets in
      * case order, and there is no default target. */
    function Build(): (t: Terminator)
      reads this
      ensures t.Switch? && t.source == source && t.cases == cases
      ensures |Successors(t)| == |cases|
      ensures forall k :: 0 <= k < |cases| ==> Successors(t)[k] == cases[k].1
    {
      CaseTargetsAt(cases);
      Terminator.Switch(source, cases)
    }
  }
}
