/**
 * The IR data model (src/ir/mod.rs): index types, function bodies as
 * control-flow graphs of basic blocks, and the instruction vocabulary.
 */
module Ir {
  import opened Wrappers
  import opened Idx
  import Decimal

  /** The `u64` of a scalar constant and of a switch case key. */
  newtype U64 = x: int | 0 <= x < 0x1_0000_0000_0000_0000

  /** A local variable slot: `%n`. */
  datatype Local = Local(private: U32) {
    /** `Idx::index` for this index type: the payload as a `usize`. */
    function Index(): (r: nat)
      ensures r < U32_MODULUS && New(r) == this
    {
      Idx.Index(private)
    }

    /** `Idx::new` for this index type: truncates to the 32-bit payload. */
    static function New(index: nat): (r: Local)
      ensures index < U32_MODULUS ==> Idx.Index(r.private) == index
      ensures (index - Idx.Index(r.private)) % U32_MODULUS == 0
    {
      Local(Idx.New(index))
    }

    /** `Debug`: a percent sign followed by the decimal index. */
    function Debug(): (s: string)
      ensures |s| >= 2 && s[0] == '%'
      ensures Decimal.IsCanonical(s[1..]) && Decimal.Value(s[1..]) == Index()
    {
      Decimal.ValueOfDigits(Index());
      "%" + Decimal.Digits(Index())
    }
  }

  /** A reference to a definition owned outside the body: `@n`. */
  datatype DefId = DefId(private: U32) {
    /** `Idx::index` for this index type: the payload as a `usize`. */
    function Index(): (r: nat)
      ensures r < U32_MODULUS && New(r) == this
    {
      Idx.Index(private)
    }

    /** `Idx::new` for this index type: truncates to the 32-bit payload. */
    static function New(index: nat): (r: DefId)
      ensures index < U32_MODULUS ==> Idx.Index(r.private) == index
      ensures (index - Idx.Index(r.private)) % U32_MODULUS == 0
    {
      DefId(Idx.New(index))
    }

    /** `Debug`: an at sign followed by the decimal index. */
    function Debug(): (s: string)
      ensures |s| >= 2 && s[0] == '@'
      ensures Decimal.IsCanonical(s[1..]) && Decimal.Value(s[1..]) == Index()
    {
      Decimal.ValueOfDigits(Index());
      "@" + Decimal.Digits(Index())
    }
  }

  /** A basic block of a body: `.bbn`. */
  datatype BasicBlock = BasicBlock(private: U32) {
    /** `Idx::index` for this index type: the payload as a `usize`. */
    function Index(): (r: nat)
      ensures r < U32_MODULUS && New(r) == this
    {
      Idx.Index(private)
    }

    /** `Idx::new` for this index type: truncates to the 32-bit payload. */
    static function New(index: nat): (r: BasicBlock)
      ensures index < U32_MODULUS ==> Idx.Index(r.private) == index
      ensures (index - Idx.Index(r.private)) % U32_MODULUS == 0
    {
      BasicBlock(Idx.New(index))
    }

    /** `Debug`: `.bb` followed by the decimal index. */
    function Debug(): (s: string)
      ensures |s| >= 4 && s[..3] == ".bb"
      ensures Decimal.IsCanonical(s[3..]) && Decimal.Value(s[3..]) == Index()
    {
      Decimal.ValueOfDigits(Index());
      ".bb" + Decimal.Digits(Index())
    }
  }

  /** A finished function body: its blocks and its local slots, by index. */
  datatype Body = Body(blocks: seq<BasicBlockData>, locals: seq<()>)

  /** Straight-line instructions, then a terminator once the block is finished. */
  datatype BasicBlockData = BasicBlockData(instructions: seq<Instruction>, terminator: Option<Terminator>)

  datatype Terminator =
    | Return
    | Unreachable
    | Goto(block: BasicBlock)
    | Call(target: Operand, args: seq<Operand>, rvp: Option<Lvalue>, goto: BasicBlock)
    | Switch(source: Operand, cases: seq<(U64, BasicBlock)>)

  datatype Instruction = Assign(lvalue: Lvalue, rvalue: Rvalue) | Nop

  datatype Operand = Copy(copied: Lvalue) | Move(moved: Lvalue) | Constant(constant: Constant)

  /** A local followed by the projections applied to it, in order. */
  datatype Lvalue = Lvalue(root: Local, projections: seq<Projection>)

  datatype Projection = Deref

  datatype Rvalue = Operand(operand: Operand) | AddressOf(place: Lvalue)

  datatype Constant = Scalar(scalar: U64) | Global(def: DefId)

  /** The blocks a terminator may transfer control to. */
  function Successors(t: Terminator): seq<BasicBlock>
  {
    match t
    case Return => []
    case Unreachable => []
    case Goto(b) => [b]
    case Call(_, _, _, b) => [b]
    case Switch(_, cases) => CaseTargets(cases)
  }

  /** The target blocks of switch cases, in case order. */
  function CaseTargets(cases: seq<(U64, BasicBlock)>): seq<BasicBlock>
  {
    if cases == [] then [] else CaseTargets(cases[..|cases| - 1]) + [cases[|cases| - 1].1]
  }

  lemma {:induction false} CaseTargetsAt(cases: seq<(U64, BasicBlock)>)
    ensures |CaseTargets(cases)| == |cases|
    ensures forall k :: 0 <= k < |cases| ==> CaseTargets(cases)[k] == cases[k].1
  {
    if cases != [] {
      CaseTargetsAt(cases[..|cases| - 1]);
    }
  }

  /** The only control-flow edges are the `Goto` target, the `Call`
    * continuation and the switch case targets; `Return` and `Unreachable`
    * end the flow. */
  lemma SuccessorEdges(t: Terminator, b: BasicBlock)
    ensures t.Return? || t.Unreachable? ==> Successors(t) == []
    ensures b in Successors(t) <==>
      || (t.Goto? && t.block == b)
      || (t.Call? && t.goto == b)
      || (t.Switch? && exists k :: 0 <= k < |t.cases| && t.cases[k].1 == b)
  {
    if t.Switch? {
      CaseTargetsAt(t.cases);
    }
  }

  /** A body every one of whose blocks carries a terminator. The builder does
    * not establish this; it is for a consumer to check. */
  predicate AllTerminated(body: Body)
  {
    forall k :: 0 <= k < |body.blocks| ==> body.blocks[k].terminator.Some?
  }
}
