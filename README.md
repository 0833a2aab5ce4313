# A verified model of the `mrp` compiler IR core

This project models, in Dafny, the three layers of a small control-flow-graph
intermediate representation:

- **Typed index arena** (`idx.dfy`, module `Idx`). An `IdxVec` is an append-only vector.
  The position of an element is its index. Every index type wraps a 32-bit
  payload (`U32`), so `Idx::new` truncates a `usize` with `as u32`.
- **IR data model** (`ir.dfy`, module `Ir`). These are the index types `Local`,
  `DefId` and `BasicBlock`, each with its `Debug` printer (`%n`, `@n`, `.bbn`).
  The closed types are `Body`, `BasicBlockData`, `Terminator`, `Instruction`,
  `Operand`, `Lvalue`, `Projection`, `Rvalue` and `Constant`. The decimal
  rendering the printers use is in `decimal.dfy` (module `Decimal`), with its
  inverse.
- **Body builder** (`builder.dfy`, module `Builder`). `BodyBuilder` owns the two arenas
  of the body under construction. A `BlockBuilder` appends instructions to one
  block or sets its terminator. A `CallBuilder` and a `SwitchBuilder`
  accumulate the operands of a call or switch terminator. The closure passed
  to `call` is modelled as a sequence of `CallOp`s applied in order.
  `ArgsOf` and `RvpOf` state what such a sequence produces.
- `scenarios.dfy` (module `Scenarios`) holds client runs of the builder. They show
  what a caller can prove from the builder's contracts alone.

`Option` lives in `wrappers.dfy`.

Where the code departs from what its structure evidently intends, the model follows the code:

- `Idx::new(v).index() == v` holds only for `v < 2^32`. Larger values are reduced modulo 2^32.
- A terminator is not final. Every terminal operation overwrites it, and
  `builder_for_block` can be called again on a finished block.
  `TerminatorOverwritten` and `Scenarios.TerminatorReplaced` show this.
- `build` does not check that blocks are terminated (`Scenarios.UnterminatedBlockEscapes`).
  `AllTerminated` is a separate predicate for consumers.
- `SwitchBuilder` cannot be reached. Its constructor is private and no block-builder
  operation creates one. It is modelled on its own.
- `BodyBuilder::new` is not `pub` either (src/ir/builder.rs:30). Code outside
  `builder.rs` cannot create a body builder, so the whole builder is reachable
  only from inside that file. The model exposes the constructor to its clients.
- `contains_key` is inverted (see Findings).

## Model

| member | source | states |
|---|---|---|
| `Idx.New` | src/common/idx.rs:28-33 | `Idx::new` gives back its argument below 2^32; in general the result is congruent to the argument modulo 2^32 (the `as u32` truncation) |
| `Idx.Index` | src/common/idx.rs:23-26 | `Idx::index` yields a `usize` below 2^32 from which `new` rebuilds the same index |
| `Idx.IndexNewRoundTrip` | src/common/idx.rs:23-33 | an index read out with `index` and rebuilt with `new` is the same index |
| `Idx.NewTruncates` | src/common/idx.rs:31 | `usize` values 2^32 apart give the same index |
| `Idx.IdxVec.constructor` | src/common/idx.rs:48-53 | a new arena is empty |
| `Idx.IdxVec.Push` | src/common/idx.rs:62-66 | appends exactly the element, keeps the earlier ones, returns `new(old len)`; below 2^32 that index reads `old len` and `get` on it yields the element |
| `Idx.IdxVec.IsEmpty` | src/common/idx.rs:68-71 | empty exactly when index 0 is absent |
| `Idx.IdxVec.Len` | src/common/idx.rs:73-76 | an index is present in `get` exactly when it is below `len` |
| `Idx.IdxVec.ContainsKey` | src/common/idx.rs:78-81 | as written: false for every index `get` accepts and for `len` itself, true only past `len` |
| `Idx.IdxVec.InBounds` | src/common/idx.rs:78-81 | the intended bounds test: true exactly when `get` finds an element |
| `Idx.ContainsKeyRejectsValidIndex` | src/common/idx.rs:80 | a one-element arena is in bounds at index 0 yet `contains_key` says no |
| `Idx.IdxVec.Get` | src/common/idx.rs:83-86 | present exactly when the index is below `len`, and then it is the stored element at that position |
| `Idx.IdxVec.GetMut` | src/common/idx.rs:88-91 | a write through `get_mut` happens exactly when `get` would succeed, changes only the addressed element, and otherwise leaves the arena unchanged |
| `Idx.IdxVec.Keys` | src/common/idx.rs:98-101 | one key per element, every key valid for `get`, and below 2^32 elements the k-th key is k |
| `Idx.IdxVec.Values` | src/common/idx.rs:103-106 | one value per element; while the arena holds at most 2^32 elements, the k-th value is what `get` returns for key k |
| `Idx.IdxVec.Iter` | src/common/idx.rs:93-96 | pairs the k-th key with the k-th value; while the arena holds at most 2^32 elements, each pair agrees with `get` |
| `Idx.IdxVec.Clear` | src/common/idx.rs:113-116 | afterwards the arena is empty, `is_empty` holds and `len` is 0 |
| `Idx.IdxVec.At` | src/common/idx.rs:158-160 | indexing is defined only below `len`, where it agrees with `get` |
| `Idx.IdxVec.Set` | src/common/idx.rs:167-169 | a store through `index_mut` replaces that one element only |
| `Idx.Contains` | src/common/idx.rs:123-126 | true exactly when some stored element equals the value |
| `Idx.FromIter` | src/common/idx.rs:143-149 | collecting a sequence gives a fresh arena holding it in order, with `len` equal to its length |
| `Decimal.Digits` | src/ir/mod.rs:14 | the `{}` rendering of a number is a non-empty digit string without leading zero, one digit exactly below 10 |
| `Decimal.ValueOfDigits` | src/ir/mod.rs:14 | reading the rendered digits back gives the number |
| `Decimal.DigitsOfValue` | src/ir/mod.rs:14 | every canonical digit string is the rendering of the number it denotes |
| `Decimal.DigitsInjective` | src/ir/mod.rs:14 | distinct numbers render differently |
| `Ir.Local.Index` | src/ir/mod.rs:8-10 | the `idx_ty!` `index` of `Local` (src/common/idx.rs:23-26): a `usize` below 2^32 from which `Local::new` rebuilds the same local |
| `Ir.Local.New` | src/ir/mod.rs:8-10 | the `idx_ty!` `new` of `Local` (src/common/idx.rs:28-33): the argument itself below 2^32, congruent to it modulo 2^32 in general |
| `Ir.DefId.Index` | src/ir/mod.rs:18-20 | the `idx_ty!` `index` of `DefId` (src/common/idx.rs:23-26): a `usize` below 2^32 from which `DefId::new` rebuilds the same id |
| `Ir.DefId.New` | src/ir/mod.rs:18-20 | the `idx_ty!` `new` of `DefId` (src/common/idx.rs:28-33): the argument itself below 2^32, congruent to it modulo 2^32 in general |
| `Ir.BasicBlock.Index` | src/ir/mod.rs:28-30 | the `idx_ty!` `index` of `BasicBlock` (src/common/idx.rs:23-26): a `usize` below 2^32 from which `BasicBlock::new` rebuilds the same block |
| `Ir.BasicBlock.New` | src/ir/mod.rs:28-30 | the `idx_ty!` `new` of `BasicBlock` (src/common/idx.rs:28-33): the argument itself below 2^32, congruent to it modulo 2^32 in general |
| `Ir.Local.Debug` | src/ir/mod.rs:12-16 | `%` followed by the canonical decimal digits of the index |
| `Ir.DefId.Debug` | src/ir/mod.rs:22-26 | `@` followed by the canonical decimal digits of the index |
| `Ir.BasicBlock.Debug` | src/ir/mod.rs:32-36 | `.bb` followed by the canonical decimal digits of the index |
| `Ir.SuccessorEdges` | src/ir/mod.rs:48-62 | `Return` and `Unreachable` have no successor; a block is a successor exactly when it is the `Goto` target, the call's `goto`, or the target of some switch case |
| `Ir.CaseTargetsAt` | src/ir/mod.rs:58-61 | the switch successors are the case targets, one per case, in case order |
| `Builder.TerminatorOverwritten` | src/ir/builder.rs:92-95 | setting a block's terminator twice leaves the block as if only the second one had been set |
| `Builder.ArgsOfAppend` | src/ir/builder.rs:135-141 | call arguments accumulate by concatenation in call order |
| `Builder.ArgsOfSingle` | src/ir/builder.rs:135-145 | `arg` adds one operand, `extend_args` adds its operands in order, `set_rvp` adds none |
| `Builder.RvpOfNone` | src/ir/builder.rs:130-145 | the result place stays `None` exactly when `set_rvp` is never called |
| `Builder.RvpOfLast` | src/ir/builder.rs:143-145 | the result place is the one given to the last `set_rvp` |
| `Builder.BodyBuilder.constructor` | src/ir/builder.rs:30-42 | a new body has no blocks and exactly `args + 1` locals |
| `Builder.BodyBuilder.Rvp` | src/ir/builder.rs:44-46 | the return place is local 0 |
| `Builder.BodyBuilder.Arg` | src/ir/builder.rs:48-50 | argument `n` is local `(1 + n) mod 2^32`, which is `1 + n` while that fits 32 bits |
| `Builder.BodyBuilder.ArgDistinct` | src/ir/builder.rs:44-50 | below the 32-bit bound, argument places never equal the return place and are distinct for distinct `n` |
| `Builder.BodyBuilder.ArgWrapsOntoRvp` | src/ir/builder.rs:48-50 | at `n = 2^32 - 1` the truncating cast makes the argument place equal the return place |
| `Builder.BodyBuilder.FreshLocal` | src/ir/builder.rs:52-54 | appends one local, returns `new(old local count)` (the count itself while below 2^32, truncated to 32 bits beyond), leaves blocks unchanged |
| `Builder.BodyBuilder.FreshBlock` | src/ir/builder.rs:56-61 | appends an empty, unterminated block, returns `new(old block count)` (the count itself while below 2^32, truncated to 32 bits beyond), leaves locals unchanged |
| `Builder.BodyBuilder.BuilderForBlock` | src/ir/builder.rs:63-65 | a new, unconsumed block builder for the given block of this body, with no check of the index |
| `Builder.BodyBuilder.Build` | src/ir/builder.rs:67-69 | the body is exactly the accumulated blocks and locals, with no termination check |
| `Builder.BlockBuilder.constructor` | src/ir/builder.rs:73-75 | a block builder on the given body and block, not yet consumed |
| `Builder.BlockBuilder.PushInstruction` | src/ir/builder.rs:77-84 | `block_data_mut` panics unless the block is in range; the instruction is appended to that block only, its terminator, the other blocks and the locals are unchanged |
| `Builder.BlockBuilder.SetTerminator` | src/ir/builder.rs:77-80 | `block_data_mut` panics unless the block is in range; the block's terminator becomes the given one, its instructions, the other blocks and the locals are unchanged |
| `Builder.BlockBuilder.Nop` | src/ir/builder.rs:82-84 | block in range; exactly one `Nop` is appended to that block; its terminator, all other blocks and the locals are unchanged |
| `Builder.BlockBuilder.Assign` | src/ir/builder.rs:86-90 | block in range; exactly one `Assign(l, r)` is appended to that block; its terminator, all other blocks and the locals are unchanged |
| `Builder.BlockBuilder.Ret` | src/ir/builder.rs:92-95 | the terminator becomes `Return`, replacing any earlier one; instructions, other blocks and locals are unchanged; returns the block and consumes the builder |
| `Builder.BlockBuilder.Unreachable` | src/ir/builder.rs:97-100 | the terminator becomes `Unreachable`, with the same frame as `Ret` |
| `Builder.BlockBuilder.Goto` | src/ir/builder.rs:102-105 | the terminator becomes `Goto(target)`, with the same frame as `Ret` |
| `Builder.BlockBuilder.Call` | src/ir/builder.rs:107-117 | the terminator becomes the call whose arguments are `ArgsOf` and whose result place is `RvpOf` of the operations, with the same frame as `Ret` |
| `Builder.CallBuilder.constructor` | src/ir/builder.rs:121-133 | starts with the given target and continuation, no arguments and no result place |
| `Builder.CallBuilder.Arg` | src/ir/builder.rs:135-137 | appends one argument and keeps the result place |
| `Builder.CallBuilder.ExtendArgs` | src/ir/builder.rs:139-141 | appends the given arguments in order and keeps the result place |
| `Builder.CallBuilder.SetRvp` | src/ir/builder.rs:143-145 | replaces the result place and keeps the arguments |
| `Builder.CallBuilder.Build` | src/ir/builder.rs:147-154 | the call terminator carrying exactly the builder's target, accumulated arguments, result place and continuation; its only successor is the continuation block |
| `Builder.SwitchBuilder.constructor` | src/ir/builder.rs:158-164 | starts with the given scrutinee and no cases |
| `Builder.SwitchBuilder.Case` | src/ir/builder.rs:166-168 | appends one `(key, target)` pair |
| `Builder.SwitchBuilder.ExtendCases` | src/ir/builder.rs:170-172 | appends the given pairs in order |
| `Builder.SwitchBuilder.Build` | src/ir/builder.rs:174-180 | a switch over exactly the accumulated cases, whose successors are the case targets in order, with no default target |
| `Scenarios.CopyArgumentAndReturn` | src/ir/builder.rs:30-95 | with one argument, copying `arg(0)` into a fresh local and returning gives one block holding that single `Assign` and ending in `Return` |
| `Scenarios.CallWithTwoArguments` | src/ir/builder.rs:107-154 | two `arg`s and one `set_rvp` give a call with exactly those two operands in order and that result place |
| `Scenarios.UnterminatedBlockEscapes` | src/ir/builder.rs:56-69 | a block that was never terminated reaches the built body |
| `Scenarios.TerminatorReplaced` | src/ir/builder.rs:63-100 | a second block builder for a returned block can replace `Return` with `Unreachable` |

## Left out

- Lifetimes, borrows and the `Deref`/`DerefMut` forwarding from child builders to their parents (src/ir/builder.rs:182-222). The back-references `CallBuilder.block` and `SwitchBuilder.block` exist only for that, so they are not modelled.
- The `FnOnce` closure of `call`. It is modelled as the sequence of call-builder operations it performs. Other effects of a closure are not modelled, such as appending instructions through `DerefMut`.
- `with_capacity`. Capacity does not change behaviour, so `with_capacity` is the same as `new`. `Default` is the constructor.
- `values_mut`. Mutation through the returned references is not modelled.
- `Idx.IdxVec.GetMut`: `get_mut` returns a reference. The model performs one write through it when it is present.
- `Idx.IdxVec.Set`: `IndexMut` returns a reference. The model stores a new element through it.
- Consumption of `BodyBuilder` by `build` is not tracked. The Dafny object stays usable afterwards. The block builder's consumption is tracked by its ghost `finished` flag.
- Derived `Hash`, `PartialOrd`, `Ord` and `Clone` impls, `PhantomData`, and `fmt::Formatter` plumbing. Only the produced strings are modelled.
- The `Idx` trait is not a Dafny type. Arena operations take and return the raw `U32` payload, and the builder wraps it in `Local` or `BasicBlock`.

## Findings

| source | as written | input that shows it | evidently intended | confidence | as-written member | corrected member |
|---|---|---|---|---|---|---|
| src/common/idx.rs:80 | `contains_key` returns `len < index` | an arena of length 1 and index 0: `get` finds the element, `contains_key` returns false | `index < len`, true exactly for the indices `get` accepts | high; not executed | `Idx.IdxVec.ContainsKey`, `Idx.ContainsKeyRejectsValidIndex` | `Idx.IdxVec.InBounds` |
