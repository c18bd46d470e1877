/** The compiler on values: what each visit does to the visitor's state and to the function
    under construction. Block and register numbers are handed out in order of creation. */
module Codegen {
  import opened Storage
  import opened Ir
  import opened Plan

  /** The visitor's fields. `blocks` and `entry` are the function, `entry` being the front of its
      block list; `prevBB` is the open block, `mainReturn` where control flows back to, `regs` the
      layout of the current tuple, `jids` the join-id queue. `pipe` counts access paths, `opId` is
      the counter that numbers operators into argument slots. */
  datatype Cg = Cg(
    dict: string -> nat,
    blocks: map<BlockId, Block>, nextBB: nat, entry: Option<BlockId>,
    nextReg: nat,
    prevBB: BlockId, mainReturn: BlockId, scanEnd: BlockId,
    regs: seq<QrValue>,
    jids: seq<nat>, nextJid: nat,
    pipe: nat,
    projectString: seq<string>, projectKeys: seq<string>,
    opId: nat)

  function Start(dict: string -> nat): Cg {
    Cg(dict, map[], 0, None, 0, 0, 0, 0, [], [], 0, 0, [], [], 1)
  }

  function CellOf(cs: Cg, k: CellKind): Cell {
    Cell(cs.pipe, k)
  }

  // Close the open block with a branch.
  function Seal(b: Block, target: BlockId): Block {
    Block(b.code, Some(Br(target)))
  }

  function Prev(cs: Cg): Block {
    if cs.prevBB in cs.blocks then cs.blocks[cs.prevBB] else EMPTY
  }

  // The function after a visit: the open block branches to the operator's entry block, and the
  // operator's own blocks are added.
  function Grow(cs: Cg, entry: BlockId, own: map<BlockId, Block>): map<BlockId, Block> {
    cs.blocks[cs.prevBB := Seal(Prev(cs), entry)] + own
  }

  function RegOf(q: QrValue): Reg {
    if q.loc.InReg? then q.loc.r else 0
  }

  function LastReg(cs: Cg): Reg {
    if cs.regs == [] then 0 else RegOf(cs.regs[|cs.regs| - 1])
  }

  // ----- loop builders -----

  // The head of while_loop_condition: both cells are loaded and compared unsigned.
  function WhileHead(lhs: Cell, rhs: Cell, body: BlockId, end: BlockId): Block {
    Block(Nil, Some(CondBr(Ult(L(lhs), L(rhs)), body, end)))
  }

  function Goto(b: BlockId): Block {
    Block(Nil, Some(Br(b)))
  }

  // Head and epilog of while_loop share the test of the iterator.
  function IteratorTest(c: Code, r: Reg, it: Reg, body: BlockId, end: BlockId): Block {
    Block(c.Do(VecEnd(r, it)), Some(CondBr(Eq(R(r), K(0)), body, end)))
  }

  // ----- access paths -----

  function InitCode(cs: Cg): Code {
    Nil.Do(Store(K(0), CellOf(cs, ResCounter)))
       .Do(Store(K(UNKNOWN_ID), CellOf(cs, RhsAlloca)))
       .Do(Store(K(MAX_PITEM_CNT), CellOf(cs, MaxCnt)))
  }

  function ScanExit(cs: Cg): Block {
    match cs.entry
    case Some(nextOp) => Goto(nextOp)
    case None => Block(Nil.Do(Finish), Some(Ret))
  }

  // Registers of the scan: the label code, the iterator and the node.
  function ItReg(cs: Cg): Reg {
    cs.nextReg + 1
  }

  function NodeReg(cs: Cg): Reg {
    cs.nextReg + 2
  }

  function ScanBody(cs: Cg, consume: BlockId, epilog: BlockId): Block {
    Block(Nil.Do(NodeFromIt(cs.nextReg + 3, ItReg(cs))).Do(ValidNode(NodeReg(cs), cs.nextReg + 3)),
          Some(CondBr(Eq(NodeF(NodeReg(cs), 5), R(cs.nextReg)), consume, epilog)))
  }

  function ScanBlocks(cs: Cg, exit: Block): map<BlockId, Block> {
    var n, r := cs.nextBB, cs.nextReg;
    var entry, scanEnd, consume, cond, body, epilog, end := n, n + 1, n + 2, n + 3, n + 4, n + 5, n + 6;
    map[
      consume := EMPTY,
      entry := Block(InitCode(cs).Do(LookupLabel(r, cs.opId)).Do(VecBegin(ItReg(cs))), Some(Br(cond))),
      cond := IteratorTest(Nil, r + 4, ItReg(cs), body, end),
      body := ScanBody(cs, consume, epilog),
      epilog := IteratorTest(Nil.Do(VecNext(ItReg(cs))), r + 5, ItReg(cs), body, end),
      end := Goto(scanEnd),
      scanEnd := exit]
  }

  function IndexBlocks(cs: Cg, exit: Block): map<BlockId, Block> {
    var n := cs.nextBB;
    var entry, scanEnd, consume := n, n + 1, n + 2;
    map[
      consume := EMPTY,
      entry := Block(InitCode(cs).Do(IndexGet(NodeReg(cs), cs.opId)),
                     Some(CondBr(IsNull(NodeReg(cs)), scanEnd, consume))),
      scanEnd := exit]
  }

  // The visitor's state once the access path has its cells and its projection keys.
  function Begun(p: Plan, cs: Cg): Cg {
    var ps := cs.projectString + PipelineKeys(p.rest);
    cs.(regs := [], projectString := ps, projectKeys := ps, pipe := cs.pipe + 1)
  }

  // A further access path is put in front of the function and ends at what was its entry.
  function VisitScan(old_: Cg, p: Plan): Cg {
    var cs := Begun(p, old_);
    var n := cs.nextBB;
    if p.scan.ScanLabel? then
      cs.(blocks := cs.blocks + ScanBlocks(cs, ScanExit(old_)), nextBB := n + 7, nextReg := cs.nextReg + 6,
          entry := Some(n), prevBB := n + 2, mainReturn := n + 5, scanEnd := n + 1,
          regs := [QrValue(InReg(NodeReg(cs)), 0)])
    else
      cs.(blocks := cs.blocks + IndexBlocks(cs, ScanExit(old_)), nextBB := n + 3, nextReg := cs.nextReg + 3,
          entry := Some(n), prevBB := n + 2, mainReturn := n + 1, scanEnd := n + 1,
          regs := [QrValue(InReg(NodeReg(cs)), 0)])
  }

  // ----- traversals -----

  function ListField(d: Dir): nat {
    if d == From then 2 else 3
  }

  function NextField(d: Dir): nat {
    if d == From then 4 else 5
  }

  // Where both forms of the loop start: the bound, the label and the head of the node's list.
  function ForeachHead(cs: Cg, d: Dir): Code {
    Nil.Do(Store(K(INT64_MAX), CellOf(cs, RhsAlloca))).Do(LookupLabel(cs.nextReg, cs.opId))
       .Do(Store(NodeF(LastReg(cs), ListField(d)), CellOf(cs, LhsAlloca)))
  }

  // The relationship register of a traversal's loop.
  function LoopReg(cs: Cg): Reg {
    cs.nextReg + 1
  }

  // The body loads the relationship with the current id and compares its label.
  function ForeachBody(cs: Cg, consume: BlockId, next: BlockId): Block {
    Block(Nil.Do(RshipById(LoopReg(cs), L(CellOf(cs, LhsAlloca)))),
          Some(CondBr(Eq(RshipF(LoopReg(cs), 7), R(cs.nextReg)), consume, next)))
  }

  // The backflow block advances from the loop's own register.
  function ForeachNext(cs: Cg, d: Dir, cond: BlockId): Block {
    Block(Nil.Do(Store(RshipF(LoopReg(cs), NextField(d)), CellOf(cs, LhsAlloca))), Some(Br(cond)))
  }

  function ForeachBlocks(cs: Cg, d: Dir): map<BlockId, Block> {
    var n := cs.nextBB;
    var feEntry, end, next, consume, fevHead, fevBody, fevNext := n, n + 1, n + 2, n + 3, n + 4, n + 5, n + 6;
    var cond, body, epilog := n + 7, n + 8, n + 9;
    map[
      consume := EMPTY, fevHead := EMPTY, fevBody := EMPTY, fevNext := EMPTY,
      feEntry := Block(ForeachHead(cs, d), Some(Br(cond))),
      cond := WhileHead(CellOf(cs, LhsAlloca), CellOf(cs, RhsAlloca), body, end),
      body := ForeachBody(cs, consume, next),
      epilog := Goto(cond),
      next := ForeachNext(cs, d, cond),
      end := Goto(cs.mainReturn)]
  }

  // The variable-hop form: the relationships are gathered by a call, then listed.
  function VariableBlocks(cs: Cg, d: Dir, min: int, max: int): map<BlockId, Block> {
    var n, r := cs.nextBB, cs.nextReg;
    var feEntry, end, next, consume, fevHead, fevBody, fevNext := n, n + 1, n + 2, n + 3, n + 4, n + 5, n + 6;
    map[
      next := EMPTY, consume := EMPTY, fevNext := EMPTY,
      feEntry := Block(ForeachHead(cs, d).Do(FevRetrieve(LastReg(cs), r, min, max)), Some(Br(fevHead))),
      fevHead := Block(Nil.Do(FevEnd(r + 2)), Some(CondBr(Eq(R(r + 2), K(1)), end, fevBody))),
      fevBody := Block(Nil.Do(FevNext(LoopReg(cs))), Some(Br(consume))),
      end := Goto(cs.mainReturn)]
  }

  function VisitForeach(cs: Cg, d: Dir, min: int, max: int): Cg {
    var n, single := cs.nextBB, min == 0 && max == 0;
    cs.(blocks := Grow(cs, n, if single then ForeachBlocks(cs, d) else VariableBlocks(cs, d, min, max)),
        nextBB := if single then n + 10 else n + 7, nextReg := cs.nextReg + 3,
        prevBB := n + 3, mainReturn := if single then n + 2 else n + 4,
        regs := cs.regs + [QrValue(InReg(LoopReg(cs)), 1)])
  }

  // The node an Expand adds, and the block that compares its label.
  function EndReg(cs: Cg): Reg {
    cs.nextReg + 1
  }

  function ExpandCheck(cs: Cg, consume: BlockId, null_: BlockId): Block {
    Block(Nil, Some(CondBr(Eq(NodeF(EndReg(cs), 5), R(cs.nextReg)), consume, null_)))
  }

  function ExpandBlocks(cs: Cg, out: bool, lbl: string): map<BlockId, Block> {
    var n, r := cs.nextBB, cs.nextReg;
    var entry, consume, null_, check := n, n + 1, n + 2, n + 3;
    var load := Nil.Do(NodeById(EndReg(cs), RshipF(LastReg(cs), if out then 3 else 2)));
    map[
      consume := EMPTY,
      entry := if lbl == "" then Block(load, Some(CondBr(IsNull(EndReg(cs)), null_, consume)))
               else Block(load.Do(LookupLabel(r, cs.opId)), Some(CondBr(IsNull(EndReg(cs)), null_, check))),
      check := if lbl == "" then EMPTY else ExpandCheck(cs, consume, null_),
      null_ := Goto(cs.mainReturn)]
  }

  function VisitExpand(cs: Cg, out: bool, lbl: string): Cg {
    var n := cs.nextBB;
    cs.(blocks := Grow(cs, n, ExpandBlocks(cs, out, lbl)), nextBB := n + 4, nextReg := cs.nextReg + 2,
        prevBB := n + 1, regs := cs.regs + [QrValue(InReg(EndReg(cs)), 0)])
  }

  // ----- filter -----

  // EQ(Key(qr, key), Int): the nested search for the property, then the comparison with the
  // argument the filter was given.
  // Registers of the search: the property set, the item and the argument.
  function SetReg(cs: Cg): Reg {
    cs.nextReg + 1
  }

  function ItemReg(cs: Cg): Reg {
    cs.nextReg + 2
  }

  function SearchSet(cs: Cg, forEach: BlockId): Block {
    Block(Nil.Do(PsetAt(SetReg(cs), L(CellOf(cs, PlistId)))).Do(Store(R(SetReg(cs)), CellOf(cs, CurPset)))
             .Do(Store(K(0), CellOf(cs, LoopCnt))), Some(Br(forEach)))
  }

  function SearchItem(cs: Cg, code: nat, found: BlockId, incr: BlockId): Block {
    Block(Nil.Do(ItemAt(ItemReg(cs), SetReg(cs), L(CellOf(cs, LoopCnt)))),
          Some(CondBr(Eq(ItemKey(ItemReg(cs)), K(code)), found, incr)))
  }

  function SearchIncr(cs: Cg, cond: BlockId): Block {
    Block(Nil.Do(Let(cs.nextReg + 3, L(CellOf(cs, LoopCnt)))).Do(Store(Succ(cs.nextReg + 3), CellOf(cs, LoopCnt))),
          Some(Br(cond)))
  }

  function SearchNext(cs: Cg, cond: BlockId): Block {
    Block(Nil.Do(Let(cs.nextReg + 4, L(CellOf(cs, CurPset)))).Do(Store(NextSet(cs.nextReg + 4), CellOf(cs, PlistId))),
          Some(Br(cond)))
  }

  // The nested search for the property code.
  function SearchBlocks(cs: Cg, code: nat): map<BlockId, Block> {
    var n := cs.nextBB;
    var false_, forEach, incr, found, nextProp := n + 2, n + 6, n + 7, n + 8, n + 9;
    var cond1, body1, epilog1, cond2, body2, epilog2 := n + 10, n + 11, n + 12, n + 13, n + 14, n + 15;
    var keyEpilog, cmp := n + 16, n + 17;
    map[
      cond1 := WhileHead(CellOf(cs, PlistId), CellOf(cs, RhsAlloca), body1, false_),
      body1 := SearchSet(cs, forEach),
      epilog1 := Goto(cond1),
      forEach := Goto(cond2),
      cond2 := WhileHead(CellOf(cs, LoopCnt), CellOf(cs, MaxCnt), body2, nextProp),
      body2 := SearchItem(cs, code, found, incr),
      epilog2 := Goto(cond2),
      incr := SearchIncr(cs, cond2),
      nextProp := SearchNext(cs, cond1),
      found := Goto(keyEpilog),
      keyEpilog := Goto(cmp)]
  }

  // The filter's own blocks: argument, node and comparison.
  function FilterFrame(cs: Cg, qr: nat): map<BlockId, Block> {
    var n := cs.nextBB;
    var entry, consume, false_, spitem, isNode, isRship := n, n + 1, n + 2, n + 3, n + 4, n + 5;
    var cond1, cmp, eqEpilog := n + 10, n + 17, n + 18;
    map[
      consume := EMPTY,
      entry := Block(Nil.Do(LoadArg(cs.nextReg, cs.opId)), Some(Br(spitem))),
      spitem := Goto(isNode),
      isRship := Block(Nil, Some(Ret)),
      isNode := Block(Nil.Do(Store(NodeF(RegAt(cs, qr), 4), CellOf(cs, PlistId))), Some(Br(cond1))),
      eqEpilog := EMPTY,
      cmp := Block(Nil, Some(CondBr(Eq(ItemValue(ItemReg(cs)), R(cs.nextReg)), consume, false_))),
      false_ := Goto(cs.mainReturn)]
  }

  function FilterBlocks(cs: Cg, qr: nat, key: string): map<BlockId, Block> {
    FilterFrame(cs, qr) + SearchBlocks(cs, cs.dict(key))
  }

  function VisitFilter(cs: Cg, qr: nat, key: string): Cg {
    var n := cs.nextBB;
    cs.(blocks := Grow(cs, n, FilterBlocks(cs, qr, key)), nextBB := n + 19, nextReg := cs.nextReg + 5, prevBB := n + 1)
  }

  // ----- projection -----

  function KeyAt(cs: Cg, i: nat): string {
    if i < |cs.projectKeys| then cs.projectKeys[i] else ""
  }

  // The calls for the first i expressions; the i-th result goes to cell pv[i].
  function ProjectCode(cs: Cg, es: seq<PrExpr>, i: nat): Code
    requires i <= |es|
  {
    if i == 0 then Nil
    else
      var e, before := es[i - 1], ProjectCode(cs, es, i - 1);
      if e.ftype == FBoolean || e.id >= |cs.regs| then before
      else
        before.Do(ApplyPexpr(cs.regs[e.id].ty == 0, KeyAt(cs, i - 1), e.ftype, RegOf(cs.regs[e.id]), CellOf(cs, Pv(i))))
  }

  function ProjectReg(cs: Cg, e: PrExpr, i: nat): QrValue {
    if e.ftype == FBoolean then (if e.id < |cs.regs| then cs.regs[e.id] else QrValue(InReg(0), 0))
    else QrValue(InCell(CellOf(cs, Pv(i))), TypeId(e.ftype))
  }

  function ProjectRegs(cs: Cg, es: seq<PrExpr>): seq<QrValue> {
    seq(|es|, i requires 0 <= i < |es| => ProjectReg(cs, es[i], i + 1))
  }

  function VisitProject(cs: Cg, es: seq<PrExpr>): Cg {
    var entry := cs.nextBB;
    cs.(blocks := Grow(cs, entry, map[entry := Block(ProjectCode(cs, es, |es|), None)]),
        nextBB := entry + 1, prevBB := entry, regs := ProjectRegs(cs, es))
  }

  // ----- limit -----

  // The limit as the 64-bit constant it becomes.
  function LimitWord(n: int): nat {
    n % TWO_64
  }

  function LimitBlocks(cs: Cg, limit: int): map<BlockId, Block> {
    var n, r, counter := cs.nextBB, cs.nextReg, CellOf(cs, ResCounter);
    var entry, reached, cont := n, n + 1, n + 2;
    map[
      entry := Block(Nil.Do(Let(r, L(counter))), Some(CondBr(Eq(R(r), K(LimitWord(limit))), reached, cont))),
      reached := Goto(cs.scanEnd),
      cont := Block(Nil.Do(Store(Succ(r), counter)), None)]
  }

  function VisitLimit(cs: Cg, limit: int): Cg {
    var n := cs.nextBB;
    cs.(blocks := Grow(cs, n, LimitBlocks(cs, limit)), nextBB := n + 3, nextReg := cs.nextReg + 1, prevBB := n + 2)
  }

  // ----- joins -----

  // Typed reads of the first i elements of the materialized tuple into consecutive registers.
  function ConcatCode(types: seq<nat>, tp: Reg, base: Reg, i: nat): Code
    requires i <= |types|
  {
    if i == 0 then Nil
    else
      ConcatCode(types, tp, base, i - 1)
      .Do(if types[i - 1] == 0 then NodeResAt(base + i - 1, tp, i - 1) else RshipResAt(base + i - 1, tp, i - 1))
  }

  function ConcatRegs(types: seq<nat>, base: Reg): seq<QrValue> {
    seq(|types|, i requires 0 <= i < |types| => QrValue(InReg(base + i), if types[i] == 0 then 0 else 1))
  }

  function RegAt(cs: Cg, i: nat): Reg {
    if i < |cs.regs| then RegOf(cs.regs[i]) else 0
  }

  // Registers of a join visit: the materialized tuple, the id of its node, and the first of the
  // registers its elements go to.
  function TpReg(cs: Cg): Reg {
    cs.nextReg + 1
  }

  function RhsIdReg(cs: Cg): Reg {
    cs.nextReg + 2
  }

  function BaseReg(cs: Cg): Reg {
    cs.nextReg + 8
  }

  function JoinEntry(cs: Cg, cond: BlockId): Block {
    Block(Nil.Do(Store(K(1), CellOf(cs, Dangling))).Do(Store(K(0), CellOf(cs, CurIdx)))
             .Do(JoinSize(cs.nextReg, cs.nextJid)).Do(Store(R(cs.nextReg), CellOf(cs, MaxIdx))), Some(Br(cond)))
  }

  // The next index; a tuple that has found no partner is passed on with its flag still set.
  function JoinIncr(cs: Cg, concat: BlockId, cond: BlockId): Block {
    Block(Nil.Do(Let(cs.nextReg + 3, L(CellOf(cs, CurIdx)))).Do(Store(Succ(cs.nextReg + 3), CellOf(cs, CurIdx))),
          Some(CondBr(Eq(L(CellOf(cs, Dangling)), K(1)), concat, cond)))
  }

  // The loop over the materialized tuples, common to both kinds of join.
  function JoinLoopBlocks(cs: Cg, kind: JoinKind): map<BlockId, Block> {
    var n := cs.nextBB;
    var entry, leftOuter, concat, incr, consume, end := n, n + 1, n + 3, n + 4, n + 7, n + 8;
    var cond, body, epilog := n + 9, n + 10, n + 11;
    map[
      consume := EMPTY,
      entry := JoinEntry(cs, cond),
      cond := WhileHead(CellOf(cs, CurIdx), CellOf(cs, MaxIdx), body, end),
      body := Block(Nil.Do(JoinTpAt(TpReg(cs), cs.nextJid, L(CellOf(cs, CurIdx)))),
                    Some(Br(if kind == Cross then concat else leftOuter))),
      epilog := Goto(cond),
      incr := JoinIncr(cs, concat, cond),
      end := Goto(cs.mainReturn)]
  }

  // A cross join advances its index as soon as the tuple is merged.
  function CrossConcat(cs: Cg, types: seq<nat>, consume: BlockId): Block {
    Block(ConcatCode(types, TpReg(cs), BaseReg(cs), |types|)
          .Do(Let(cs.nextReg + 4, L(CellOf(cs, CurIdx)))).Do(Store(Succ(cs.nextReg + 4), CellOf(cs, CurIdx))),
          Some(Br(consume)))
  }

  function CrossBlocks(cs: Cg, types: seq<nat>): map<BlockId, Block> {
    var n := cs.nextBB;
    var leftOuter, forNext, concat, undang, ret, consume := n + 1, n + 2, n + 3, n + 5, n + 6, n + 7;
    map[leftOuter := EMPTY, forNext := EMPTY, undang := EMPTY, ret := EMPTY, concat := CrossConcat(cs, types, consume)]
  }

  function LeftEntry(cs: Cg, lhsPos: nat, rhsPos: nat, rcond: BlockId): Block {
    var r := cs.nextReg;
    Block(Nil.Do(NodeResAt(r + 5, TpReg(cs), rhsPos)).Do(Let(RhsIdReg(cs), NodeF(r + 5, 1)))
             .Do(Let(r + 6, NodeF(RegAt(cs, lhsPos), 2))).Do(Store(R(r + 6), CellOf(cs, CrossJoinIdx)))
             .Do(Alloca(CellOf(cs, Ra))).Do(Alloca(CellOf(cs, Ridx))).Do(Store(R(r + 6), CellOf(cs, Ridx))),
             Some(Br(rcond)))
  }

  function LeftBody(cs: Cg, undang: BlockId, forNext: BlockId): Block {
    var r := cs.nextReg;
    Block(Nil.Do(RshipById(r + 7, L(CellOf(cs, Ridx)))).Do(Store(R(r + 7), CellOf(cs, Ra))),
          Some(CondBr(Eq(R(RhsIdReg(cs)), RshipF(r + 7, 3)), undang, forNext)))
  }

  function LeftNext(cs: Cg, rcond: BlockId): Block {
    var r := cs.nextReg;
    Block(Nil.Do(Let(r + 7, L(CellOf(cs, Ra)))).Do(Store(RshipF(r + 7, 4), CellOf(cs, Ridx))), Some(Br(rcond)))
  }

  // The loop over the relationships of the left node, for one materialized tuple.
  function LeftOuterBlocks(cs: Cg, types: seq<nat>, lhsPos: nat, rhsPos: nat): map<BlockId, Block> {
    var n := cs.nextBB;
    var leftOuter, forNext, concat, incr, undang, ret, consume := n + 1, n + 2, n + 3, n + 4, n + 5, n + 6, n + 7;
    var cond, rcond, rbody, repilog := n + 9, n + 12, n + 13, n + 14;
    map[
      leftOuter := LeftEntry(cs, lhsPos, rhsPos, rcond),
      rcond := WhileHead(CellOf(cs, Ridx), CellOf(cs, RhsAlloca), rbody, incr),
      rbody := LeftBody(cs, undang, forNext),
      repilog := Goto(rcond),
      forNext := LeftNext(cs, rcond),
      undang := Block(Nil.Do(Store(K(0), CellOf(cs, Dangling))), Some(Br(concat))),
      ret := Block(Nil, Some(CondBr(Ult(L(CellOf(cs, Ridx)), K(UNKNOWN_ID)), forNext, cond))),
      concat := Block(ConcatCode(types, TpReg(cs), BaseReg(cs), |types|), Some(Br(consume)))]
  }

  function JoinBlocks(cs: Cg, kind: JoinKind, types: seq<nat>): map<BlockId, Block> {
    JoinLoopBlocks(cs, kind) +
    (match kind case Cross => CrossBlocks(cs, types) case LeftOuter(i, j) => LeftOuterBlocks(cs, types, i, j))
  }

  // A left outer join adds its flag, still in its cell, to the tuple.
  function JoinRegs(cs: Cg, kind: JoinKind, types: seq<nat>): seq<QrValue> {
    var regs := cs.regs + ConcatRegs(types, BaseReg(cs));
    if kind == Cross then regs else regs + [QrValue(InCell(CellOf(cs, Dangling)), 7)]
  }

  function VisitJoin(cs: Cg, kind: JoinKind, types: seq<nat>): Cg {
    var n, cross := cs.nextBB, kind == Cross;
    cs.(blocks := Grow(cs, n, JoinBlocks(cs, kind, types)), nextBB := if cross then n + 12 else n + 15,
        nextReg := BaseReg(cs) + |types|,
        prevBB := n + 7, mainReturn := if cross then n + 9 else n + 6, regs := JoinRegs(cs, kind, types),
        jids := cs.jids + [cs.nextJid], nextJid := cs.nextJid + 1)
  }

  // ----- the ends of a pipeline -----

  function CollectCode(regs: seq<QrValue>, i: nat): Code
    requires i <= |regs|
  {
    if i == 0 then Nil
    else CollectCode(regs, i - 1).Do(MatReg(regs[i - 1].loc, if regs[i - 1].ty == 7 then 2 else regs[i - 1].ty))
  }

  function VisitCollect(cs: Cg): Cg {
    var entry := cs.nextBB;
    var code := CollectCode(cs.regs, |cs.regs|).Do(CollectTuple);
    cs.(blocks := Grow(cs, entry, map[entry := Block(code, Some(Br(cs.mainReturn)))]),
        nextBB := entry + 1)
  }

  function EndCode(regs: seq<QrValue>, i: nat): Code
    requires i <= |regs|
  {
    if i == 0 then Nil
    else
      EndCode(regs, i - 1).Do(if regs[i - 1].ty == 0 then MatNode(RegOf(regs[i - 1])) else MatRship(RegOf(regs[i - 1])))
  }

  function FrontJid(cs: Cg): nat {
    if cs.jids == [] then 0 else cs.jids[0]
  }

  function VisitEnd(cs: Cg): Cg {
    var entry := cs.nextBB;
    var code := EndCode(cs.regs, |cs.regs|).Do(CollectJoin(FrontJid(cs)));
    cs.(blocks := Grow(cs, entry, map[entry := Block(code, Some(Br(cs.mainReturn)))]),
        nextBB := entry + 1, jids := if cs.jids == [] then [] else cs.jids[1..])
  }

  // ----- the traversal that drives the visitor -----

  // The visit of one operator, before its inputs are compiled.
  function Visit(r: Rest, cs: Cg): Cg {
    match r
    case Foreach(d, min, max, _, _) => VisitForeach(cs, d, min, max)
    case Expand(out, lbl, _) => VisitExpand(cs, out, lbl)
    case Filter(qr, key, _, _) => VisitFilter(cs, qr, key)
    case Project(es, _) => VisitProject(cs, es)
    case Limit(n, _) => VisitLimit(cs, n)
    case Sort(_) => cs
    case Join(kind, _, rhs) => VisitJoin(cs, kind, RhsTypes(rhs))
    case Collect => VisitCollect(cs)
    case End => VisitEnd(cs)
  }

  // The state in which the next operator of the pipeline is visited.
  function After(r: Rest, cs: Cg): Cg {
    var cs1 := Visit(r, cs);
    cs1.(opId := cs1.opId + Width(r))
  }

  function AfterScan(p: Plan, cs: Cg): Cg {
    var cs1 := VisitScan(cs, p);
    cs1.(opId := cs1.opId + ScanWidth(p.scan))
  }

  // A join compiles the rest of its own pipeline first, then its second input.
  function CompileRest(r: Rest, cs: Cg): Cg
    decreases r
  {
    var cs1 := After(r, cs);
    match r
    case Collect => cs1
    case End => cs1
    case Join(_, lhs, rhs) => CompilePlan(rhs, CompileRest(lhs, cs1))
    case _ => CompileRest(r.next, cs1)
  }

  function CompilePlan(p: Plan, cs: Cg): Cg
    decreases p
  {
    CompileRest(p.rest, AfterScan(p, cs))
  }

  function Compile(dict: string -> nat, p: Plan): Cg {
    CompilePlan(p, Start(dict))
  }
}
