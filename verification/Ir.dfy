/** The code the compiler emits: basic blocks over registers and stack cells. */
module Ir {
  import opened Storage

  type Reg = nat
  type BlockId = nat

  /** The stack cells. Every access path runs `init_function` and so gets cells of its own;
      a cell is named by the number of its access path and by its role. */
  datatype CellKind =
    | ResCounter | RhsAlloca | LhsAlloca | PlistId | LoopCnt | MaxCnt | CurPset
    | Pv(i: nat)
    | MaxIdx | CurIdx | CrossJoinIdx | Dangling | Ra | Ridx
  datatype Cell = Cell(pipe: nat, kind: CellKind)

  datatype FType = FInt | FDouble | FString | FDate | FTime | FBoolean | FUint64

  // Type ids of register values: 0 node, 1 relationship, else 2 plus the projected type.
  function TypeId(f: FType): nat {
    match f
    case FInt => 2
    case FDouble => 3
    case FString => 4
    case FDate => 5
    case FTime => 6
    case FBoolean => 7
    case FUint64 => 8
  }

  // A query result lives in a register or, for projections and the dangling flag, in a cell.
  datatype Loc = InReg(r: Reg) | InCell(c: Cell)
  datatype QrValue = QrValue(loc: Loc, ty: nat)

  /** A value. Values that the compiler uses once, in the block that makes them, are written in
      place: the content of a cell, a field of the record a register points to, an increment. */
  datatype Opnd =
    | K(n: nat)
    | R(r: Reg)
    | L(c: Cell)
    | NodeF(r: Reg, f: nat)
    | RshipF(r: Reg, f: nat)
    | NextSet(r: Reg)
    | ItemKey(r: Reg)
    | ItemValue(r: Reg)
    | Succ(r: Reg)

  datatype Instr =
    | Alloca(c: Cell)
    | Let(d: Reg, o: Opnd)
    | Store(o: Opnd, c: Cell)
    | ItemAt(d: Reg, ps: Reg, idx: Opnd)
    // calls into the runtime
    | LookupLabel(d: Reg, slot: nat)
    | LoadArg(d: Reg, slot: nat)
    | VecBegin(d: Reg)
    | VecNext(r: Reg)
    | VecEnd(d: Reg, r: Reg)
    | NodeFromIt(d: Reg, r: Reg)
    | ValidNode(d: Reg, r: Reg)
    | IndexGet(d: Reg, slot: nat)
    | NodeById(d: Reg, id: Opnd)
    | RshipById(d: Reg, id: Opnd)
    | PsetAt(d: Reg, id: Opnd)
    | FevRetrieve(node: Reg, code: Reg, min: int, max: int)
    | FevEnd(d: Reg)
    | FevNext(d: Reg)
    | ApplyPexpr(isNode: bool, key: string, ftype: FType, r: Reg, c: Cell)
    | MatReg(loc: Loc, ty: nat)
    | CollectTuple
    | MatNode(r: Reg)
    | MatRship(r: Reg)
    | CollectJoin(jid: nat)
    | JoinSize(d: Reg, jid: nat)
    | JoinTpAt(d: Reg, jid: nat, idx: Opnd)
    | NodeResAt(d: Reg, tp: Reg, i: nat)
    | RshipResAt(d: Reg, tp: Reg, i: nat)
    | Finish

  // Instructions in the order they were emitted into the block.
  datatype Code = Nil | Then(before: Code, instr: Instr) {
    function Do(i: Instr): Code { Then(this, i) }
  }

  // Comparisons are unsigned.
  datatype Test = Eq(a: Opnd, b: Opnd) | Ult(a: Opnd, b: Opnd) | IsNull(r: Reg)

  datatype Term = Br(b: BlockId) | CondBr(test: Test, then_: BlockId, else_: BlockId) | Ret

  // A block without a terminator is still open.
  datatype Block = Block(code: Code, term: Option<Term>)

  const EMPTY: Block := Block(Nil, None)

  function Len(c: Code): nat {
    match c
    case Nil => 0
    case Then(b, _) => Len(b) + 1
  }

  function At(c: Code, pc: nat): Instr
    requires pc < Len(c)
  {
    if pc == Len(c.before) then c.instr else At(c.before, pc)
  }

  predicate IsPrefix(a: Code, c: Code) {
    a == c || (c.Then? && IsPrefix(a, c.before))
  }

  lemma {:induction false} PrefixAt(a: Code, c: Code)
    requires IsPrefix(a, c)
    ensures Len(a) <= Len(c)
    ensures a.Then? ==> IsPrefix(a.before, c) && At(c, Len(a.before)) == a.instr
  {
    if a != c {
      PrefixAt(a, c.before);
    }
  }
}
