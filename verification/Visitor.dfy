/** The visitor in place: its fields, and the function it builds block by block. Each visit changes them
    exactly as the compiler on values says. */
module Visitor {
  import opened Storage
  import opened Ir
  import opened Plan
  import opened Codegen
  import opened Shape
  import opened ArgSlots
  import opened ProjectionKeys

  class CodegenInlineVisitor {
    const dict: string -> nat
    // The function under construction; `front` is its first block.
    var blocks: Blocks
    var nextBB: nat
    var front: Option<BlockId>
    var nextReg: nat
    var prevBB: BlockId
    var mainReturn: BlockId
    var scanNodesEnd: BlockId
    var regQueryResults: seq<QrValue>
    var jids: seq<nat>
    var queryIdInline: nat
    var pipe: nat
    var projectString: seq<string>
    var projectKeys: seq<string>
    // The counter that numbers the operators, and the slots handed out: first slot and width.
    var opId: nat
    var slots: seq<(nat, nat)>

    function View(): Cg
      reads this
    {
      Cg(dict, blocks, nextBB, front, nextReg, prevBB, mainReturn, scanNodesEnd, regQueryResults,
         jids, queryIdInline, pipe, projectString, projectKeys, opId)
    }

    constructor (dict: string -> nat)
      ensures View() == Start(dict) && slots == []
    {
      this.dict := dict;
      blocks, nextBB, nextReg, front := map[], 0, 0, None;
      prevBB, mainReturn, scanNodesEnd := 0, 0, 0;
      regQueryResults, jids, queryIdInline, pipe := [], [], 0, 0;
      projectString, projectKeys, opId, slots := [], [], 1, [];
    }

    // The open block is closed with a branch to the operator's entry block, and the operator's own
    // blocks go into the function.
    method Link(entry: BlockId, own: Blocks)
      requires IsOpen(View())
      modifies this`blocks
      ensures blocks == Grow(old(View()), entry, own)
    {
      blocks := blocks[prevBB := Seal(blocks[prevBB], entry)];
      blocks := blocks + own;
    }

    // Where the next operator is emitted, and where control flows back to from it.
    method Continue(next: nat, registers: nat, open: BlockId, backflow: BlockId)
      modifies this`nextBB, this`nextReg, this`prevBB, this`mainReturn
      ensures nextBB == next && nextReg == old(nextReg) + registers && prevBB == open && mainReturn == backflow
    {
      nextBB, nextReg, prevBB, mainReturn := next, nextReg + registers, open, backflow;
    }

    // ----- operators -----

    method VisitForeach(d: Dir, min: int, max: int)
      requires IsOpen(View())
      modifies this
      ensures View() == Codegen.VisitForeach(old(View()), d, min, max) && slots == old(slots)
    {
      hide ForeachBlocks, VariableBlocks, Grow, IsOpen;
      var n, rship, variable := nextBB, nextReg + 1, !(min == 0 && max == 0);
      var own;
      if variable { own := EmitVariable(View(), d, min, max); } else { own := EmitForeach(View(), d); }
      var next, backflow := if variable then n + 7 else n + 10, if variable then n + 4 else n + 2;
      Link(n, own);
      regQueryResults := regQueryResults + [QrValue(InReg(rship), 1)];
      Continue(next, 3, n + 3, backflow);
    }

    method VisitExpand(out: bool, lbl: string)
      requires IsOpen(View())
      modifies this
      ensures View() == Codegen.VisitExpand(old(View()), out, lbl) && slots == old(slots)
    {
      hide ExpandBlocks, Grow, IsOpen;
      var n, node := nextBB, nextReg + 1;
      var own := EmitExpand(View(), out, lbl);
      Link(n, own);
      nextBB, nextReg, regQueryResults := n + 4, nextReg + 2, regQueryResults + [QrValue(InReg(node), 0)];
      prevBB := n + 1;
    }

    method VisitFilter(qr: nat, key: string)
      requires IsOpen(View())
      modifies this
      ensures View() == Codegen.VisitFilter(old(View()), qr, key) && slots == old(slots)
    {
      hide FilterBlocks, Grow, IsOpen;
      var n := nextBB;
      var own := EmitFilter(View(), qr, key);
      Link(n, own);
      nextBB, nextReg, prevBB := n + 19, nextReg + 5, n + 1;
    }

    method VisitProject(es: seq<PrExpr>)
      requires IsOpen(View())
      modifies this
      ensures View() == Codegen.VisitProject(old(View()), es) && slots == old(slots)
    {
      hide ProjectCode, ProjectRegs, Grow, IsOpen;
      var entry := nextBB;
      var code, nqrv := EmitProject(View(), es);
      Link(entry, map[entry := Block(code, None)]);
      nextBB, prevBB, regQueryResults := entry + 1, entry, nqrv;
    }

    method VisitLimit(limit: int)
      requires IsOpen(View())
      modifies this
      ensures View() == Codegen.VisitLimit(old(View()), limit) && slots == old(slots)
    {
      hide LimitBlocks, Grow, IsOpen;
      var n := nextBB;
      var own := EmitLimit(View(), limit);
      Link(n, own);
      nextBB, nextReg, prevBB := n + 3, nextReg + 1, n + 2;
    }

    method VisitJoin(kind: JoinKind, types: seq<nat>)
      requires IsOpen(View())
      modifies this
      ensures View() == Codegen.VisitJoin(old(View()), kind, types) && slots == old(slots)
    {
      hide JoinBlocks, Grow, IsOpen, JoinRegs;
      var n, cross := nextBB, kind == Cross;
      var own := EmitJoin(View(), kind, types);
      var regs := PushTypes(View(), kind, types);
      var next, backflow := if cross then n + 12 else n + 15, if cross then n + 9 else n + 6;
      Link(n, own);
      jids, queryIdInline, regQueryResults := jids + [queryIdInline], queryIdInline + 1, regs;
      Continue(next, 8 + |types|, n + 7, backflow);
    }

    method VisitCollect()
      requires IsOpen(View())
      modifies this
      ensures View() == Codegen.VisitCollect(old(View())) && slots == old(slots)
    {
      hide CollectCode, Grow, IsOpen;
      var entry := nextBB;
      var code := EmitCollect(regQueryResults);
      Link(entry, map[entry := Block(code.Do(CollectTuple), Some(Br(mainReturn)))]);
      nextBB := entry + 1;
    }

    method VisitEnd()
      requires IsOpen(View())
      modifies this
      ensures View() == Codegen.VisitEnd(old(View())) && slots == old(slots)
    {
      hide EndCode, Grow, IsOpen;
      var entry := nextBB;
      var code := EmitEnd(regQueryResults);
      var lastJid := if jids == [] then 0 else jids[0];
      Link(entry, map[entry := Block(code.Do(CollectJoin(lastJid)), Some(Br(mainReturn)))]);
      nextBB, jids := entry + 1, if jids == [] then [] else jids[1..];
    }

    // ----- access paths -----

    // The keys of a projection go to the strings that get an allocation.
    method GetProjectionKeys(es: seq<PrExpr>)
      modifies this`projectString
      ensures projectString == old(projectString) + Keys(es)
    {
      ghost var was := projectString;
      for i := 0 to |es|
        invariant projectString == was + Keys(es)[..i]
      {
        projectString := projectString + [es[i].key];
      }
      assert Keys(es)[..|es|] == Keys(es);
    }

    // The walk down a pipeline. Its test on the kind of an operator holds of every kind, so it counts
    // them all, filters and projections too.
    method QueryLength(p: Plan) returns (count: nat)
      modifies this`projectString
      ensures count == 1 + |Walked(p.rest)| && projectString == old(projectString) + PipelineKeys(p.rest)
      ensures KeysOf(Walked(p.rest), projectString[|old(projectString)|..])
    {
      count := 1;
      var cur := p.rest;
      ghost var was := projectString;
      while !cur.Collect? && !cur.End?
        invariant count + |Walked(cur)| == 1 + |Walked(p.rest)|
        invariant projectString + PipelineKeys(cur) == was + PipelineKeys(p.rest)
        decreases cur
      {
        count := count + 1;
        if cur.Project? {
          ghost var before := projectString;
          GetProjectionKeys(cur.exprs);
          assert before + (Keys(cur.exprs) + PipelineKeys(cur.next)) == projectString + PipelineKeys(cur.next);
        }
        cur := Tail(cur);
      }
      PipelineOrder(p.rest);
      assert projectString + [] == projectString && projectString[|was|..] == PipelineKeys(p.rest);
    }

    // init_function: cells of the access path's own, and the keys of its projections.
    method InitFunction(p: Plan)
      modifies this
      ensures View() == Begun(p, old(View())) && slots == old(slots)
      ensures regQueryResults == [] && pipe == old(pipe) + 1 && projectKeys == projectString
      ensures old(projectString) <= projectKeys && KeysOf(Walked(p.rest), projectKeys[|old(projectString)|..])
    {
      hide PipelineKeys, KeysOf;
      regQueryResults := [];
      var _ := QueryLength(p);
      pipe, projectKeys := pipe + 1, projectString;
    }

    // The access path's blocks go in front of the function.
    method PushFront(own: Blocks, next: nat, registers: nat, backflow: BlockId)
      modifies this
      ensures View() == var cs := old(View()); var n := cs.nextBB;
              cs.(blocks := cs.blocks + own, nextBB := next, nextReg := cs.nextReg + registers, entry := Some(n),
                  prevBB := n + 2, mainReturn := backflow, scanEnd := n + 1,
                  regs := [QrValue(InReg(cs.nextReg + 2), 0)])
      ensures slots == old(slots)
    {
      var n := nextBB;
      blocks, front, scanNodesEnd := blocks + own, Some(n), n + 1;
      regQueryResults := [QrValue(InReg(nextReg + 2), 0)];
      Continue(next, registers, n + 2, backflow);
    }

    method VisitScan(p: Plan)
      modifies this
      ensures View() == Codegen.VisitScan(old(View()), p) && slots == old(slots)
    {
      hide ScanBlocks, IndexBlocks, ScanExit, Begun;
      var exit := EmitExit(front);
      InitFunction(p);
      if p.scan.ScanLabel? {
        var own := EmitScan(View(), exit);
        PushFront(own, nextBB + 7, 6, nextBB + 5);
      } else {
        var own := EmitIndex(View(), exit);
        PushFront(own, nextBB + 3, 3, nextBB + 1);
      }
    }

    // ----- the traversal -----

    // The operator takes its number and is visited; the counter moves on by the operator's width.
    method CodegenOne(r: Rest)
      requires IsOpen(View())
      modifies this
      ensures View() == After(r, old(View()))
      ensures slots == old(slots) + (if Width(r) == 0 then [] else [(old(opId), Width(r))])
    {
      hide IsOpen, Grow, ForeachBlocks, VariableBlocks, ExpandBlocks, FilterBlocks, LimitBlocks, JoinBlocks,
           ProjectCode, CollectCode, EndCode, RhsTypes;
      ghost var was := slots;
      if Width(r) > 0 {
        slots := slots + [(opId, Width(r))];
      }
      VisitOne(r);
      opId := opId + Width(r);
    }

    method VisitOne(r: Rest)
      requires IsOpen(View())
      modifies this
      ensures View() == Visit(r, old(View())) && slots == old(slots)
    {
      hide IsOpen, Grow, ForeachBlocks, VariableBlocks, ExpandBlocks, FilterBlocks, LimitBlocks, JoinBlocks,
           ProjectCode, CollectCode, EndCode, RhsTypes;
      match r {
        case Foreach(d, min, max, _, _) => VisitForeach(d, min, max);
        case Expand(out, lbl, _) => VisitExpand(out, lbl);
        case Filter(qr, key, _, _) => VisitFilter(qr, key);
        case Project(es, _) => VisitProject(es);
        case Limit(n, _) => VisitLimit(n);
        case Sort(_) =>
        case Join(kind, _, rhs) =>
          var types := GetRhsType(rhs, []);
          assert [] + RhsTypes(rhs) == RhsTypes(rhs);
          VisitJoin(kind, types);
        case Collect => VisitCollect();
        case End => VisitEnd();
      }
    }

    /** A join is visited before its inputs, and its own pipeline is compiled before its second input. */
    method CodegenRest(r: Rest)
      requires Bounded(View()) && IsOpen(View())
      modifies this
      ensures View() == CompileRest(r, old(View())) && Bounded(View())
      ensures slots == old(slots) + RestSlots(r, old(opId))
      decreases r
    {
      hide IsOpen, Bounded, Extends, After, AfterScan;
      ghost var cs := View();
      VisitKeeps(r, cs);
      OpIdAfter(r, cs);
      CodegenOne(r);
      match r {
        case Collect =>
        case End =>
        case Join(_, lhs, rhs) =>
          RestCounter(lhs, View());
          CodegenRest(lhs);
          CodegenPlan(rhs);
        case _ =>
          CodegenRest(r.next);
      }
    }

    method CodegenPlan(p: Plan)
      requires Bounded(View())
      modifies this
      ensures View() == CompilePlan(p, old(View())) && Bounded(View())
      ensures slots == old(slots) + PlanSlots(p, old(opId))
      decreases p
    {
      hide IsOpen, Bounded, Extends, CompileRest, ScanBlocks, IndexBlocks, Codegen.VisitScan;
      ghost var cs := View();
      ScanKeeps(p, cs);
      SameCounter(p, cs);
      slots := slots + [(opId, ScanWidth(p.scan))];
      VisitScan(p);
      opId := opId + ScanWidth(p.scan);
      ghost var own, rest := [(old(opId), ScanWidth(p.scan))], RestSlots(p.rest, opId);
      CodegenRest(p.rest);
      assert slots == old(slots) + own + rest == old(slots) + (own + rest);
    }
  }

  // A visit does not touch the counter.
  lemma SameCounter(p: Plan, cs: Cg)
    ensures Codegen.VisitScan(cs, p).opId == cs.opId
  {
    hide ScanBlocks, IndexBlocks;
  }

  /** Compiling a query: the function and its entry, and the slots of the operators. */
  method Compiled(dict: string -> nat, p: Plan) returns (v: CodegenInlineVisitor)
    ensures fresh(v) && v.View() == Compile(dict, p) && v.slots == PlanSlots(p, 1)
  {
    v := new CodegenInlineVisitor(dict);
    v.CodegenPlan(p);
  }

  // ----- the blocks of the visits, in the order in which they are completed -----

  method EmitForeach(cs: Cg, d: Dir) returns (own: Blocks)
    ensures own == ForeachBlocks(cs, d)
  {
    var nodeField, nextField := if d == From then 2 else 3, if d == From then 4 else 5;
    var n, labelCode, rship := cs.nextBB, cs.nextReg, cs.nextReg + 1;
    var feEntry, end, next, consume, fevHead, fevBody, fevNext := n, n + 1, n + 2, n + 3, n + 4, n + 5, n + 6;
    own := map[consume := EMPTY, fevHead := EMPTY, fevBody := EMPTY, fevNext := EMPTY];
    var lhs, rhs := CellOf(cs, LhsAlloca), CellOf(cs, RhsAlloca);
    var code := Nil.Do(Store(K(INT64_MAX), rhs));
    code := code.Do(LookupLabel(labelCode, cs.opId));
    code := code.Do(Store(NodeF(LastReg(cs), nodeField), lhs));
    // while_loop_condition
    var cond, body, epilog := n + 7, n + 8, n + 9;
    own := own[feEntry := Block(code, Some(Br(cond)))];
    own := own[cond := WhileHead(lhs, rhs, body, end)];
    code := Nil.Do(RshipById(rship, L(lhs)));
    own := own[body := Block(code, Some(CondBr(Eq(RshipF(rship, 7), R(labelCode)), consume, next)))];
    own := own[epilog := Goto(cond)];
    // the next relationship, and the way back to the previous operator
    own := own[next := Block(Nil.Do(Store(RshipF(rship, nextField), lhs)), Some(Br(cond)))];
    own := own[end := Goto(cs.mainReturn)];
  }

  method EmitVariable(cs: Cg, d: Dir, min: int, max: int) returns (own: Blocks)
    ensures own == VariableBlocks(cs, d, min, max)
  {
    var nodeField := if d == From then 2 else 3;
    var n, labelCode, rship, isEnd := cs.nextBB, cs.nextReg, cs.nextReg + 1, cs.nextReg + 2;
    var feEntry, end, next, consume, fevHead, fevBody, fevNext := n, n + 1, n + 2, n + 3, n + 4, n + 5, n + 6;
    own := map[next := EMPTY, consume := EMPTY, fevNext := EMPTY];
    var code := Nil.Do(Store(K(INT64_MAX), CellOf(cs, RhsAlloca)));
    code := code.Do(LookupLabel(labelCode, cs.opId));
    code := code.Do(Store(NodeF(LastReg(cs), nodeField), CellOf(cs, LhsAlloca)));
    code := code.Do(FevRetrieve(LastReg(cs), labelCode, min, max));
    own := own[feEntry := Block(code, Some(Br(fevHead)))];
    own := own[fevHead := Block(Nil.Do(FevEnd(isEnd)), Some(CondBr(Eq(R(isEnd), K(1)), end, fevBody)))];
    own := own[fevBody := Block(Nil.Do(FevNext(rship)), Some(Br(consume)))];
    own := own[end := Goto(cs.mainReturn)];
  }

  method EmitExpand(cs: Cg, out: bool, lbl: string) returns (own: Blocks)
    ensures own == ExpandBlocks(cs, out, lbl)
  {
    var n, labelCode, node := cs.nextBB, cs.nextReg, cs.nextReg + 1;
    var entry, consume, null_, checkLabel := n, n + 1, n + 2, n + 3;
    own := map[consume := EMPTY];
    var code := Nil.Do(NodeById(node, RshipF(LastReg(cs), if out then 3 else 2)));
    if lbl == "" {
      own := own[entry := Block(code, Some(CondBr(IsNull(node), null_, consume)))];
      own := own[checkLabel := EMPTY];
    } else {
      code := code.Do(LookupLabel(labelCode, cs.opId));
      own := own[entry := Block(code, Some(CondBr(IsNull(node), null_, checkLabel)))];
      own := own[checkLabel := Block(Nil, Some(CondBr(Eq(NodeF(node, 5), R(labelCode)), consume, null_)))];
    }
    own := own[null_ := Goto(cs.mainReturn)];
  }

  // The nested loops of the key token: property sets, and the three items of each.
  method EmitSearch(cs: Cg, code: nat) returns (own: Blocks)
    ensures own == SearchBlocks(cs, code)
  {
    var n, pset, item := cs.nextBB, cs.nextReg + 1, cs.nextReg + 2;
    var falsePred, forEachItem, increment, found, nextProp := n + 2, n + 6, n + 7, n + 8, n + 9;
    var plistId, loopCnt, curPset := CellOf(cs, PlistId), CellOf(cs, LoopCnt), CellOf(cs, CurPset);
    var cond1, body1, epilog1 := n + 10, n + 11, n + 12;
    own := map[cond1 := WhileHead(plistId, CellOf(cs, RhsAlloca), body1, falsePred)];
    var c := Nil.Do(PsetAt(pset, L(plistId)));
    c := c.Do(Store(R(pset), curPset));
    c := c.Do(Store(K(0), loopCnt));
    own := own[body1 := Block(c, Some(Br(forEachItem)))];
    own := own[epilog1 := Goto(cond1)];
    var cond2, body2, epilog2 := n + 13, n + 14, n + 15;
    own := own[forEachItem := Goto(cond2)];
    own := own[cond2 := WhileHead(loopCnt, CellOf(cs, MaxCnt), body2, nextProp)];
    c := Nil.Do(ItemAt(item, pset, L(loopCnt)));
    own := own[body2 := Block(c, Some(CondBr(Eq(ItemKey(item), K(code)), found, increment)))];
    own := own[epilog2 := Goto(cond2)];
    c := Nil.Do(Let(cs.nextReg + 3, L(loopCnt)));
    c := c.Do(Store(Succ(cs.nextReg + 3), loopCnt));
    own := own[increment := Block(c, Some(Br(cond2)))];
    c := Nil.Do(Let(cs.nextReg + 4, L(curPset)));
    c := c.Do(Store(NextSet(cs.nextReg + 4), plistId));
    own := own[nextProp := Block(c, Some(Br(cond1)))];
    var keyEpilog, cmp := n + 16, n + 17;
    own := own[found := Goto(keyEpilog)];
    own := own[keyEpilog := Goto(cmp)];
  }

  method EmitFilter(cs: Cg, qr: nat, key: string) returns (own: Blocks)
    ensures own == FilterBlocks(cs, qr, key)
  {
    hide SearchBlocks;
    var n, arg, item := cs.nextBB, cs.nextReg, cs.nextReg + 2;
    var entry, consume, falsePred, spitem, isNode, isRship := n, n + 1, n + 2, n + 3, n + 4, n + 5;
    own := map[consume := EMPTY];
    own := own[entry := Block(Nil.Do(LoadArg(arg, cs.opId)), Some(Br(spitem)))];
    own := own[spitem := Goto(isNode)];
    own := own[isRship := Block(Nil, Some(Ret))];
    own := own[isNode := Block(Nil.Do(Store(NodeF(RegAt(cs, qr), 4), CellOf(cs, PlistId))), Some(Br(n + 10)))];
    var search := EmitSearch(cs, cs.dict(key));
    var cmp, eqEpilog := n + 17, n + 18;
    own := own[eqEpilog := EMPTY];
    own := own[cmp := Block(Nil, Some(CondBr(Eq(ItemValue(item), R(arg)), consume, falsePred)))];
    own := own[falsePred := Goto(cs.mainReturn)];
    own := own + search;
  }

  method EmitProject(cs: Cg, es: seq<PrExpr>) returns (code: Code, nqrv: seq<QrValue>)
    ensures code == ProjectCode(cs, es, |es|) && nqrv == ProjectRegs(cs, es)
  {
    code, nqrv := Nil, [];
    for i := 0 to |es|
      invariant code == ProjectCode(cs, es, i)
      invariant nqrv == seq(i, k requires 0 <= k < i => ProjectReg(cs, es[k], k + 1))
    {
      var pe := es[i];
      if pe.ftype == FBoolean {
        nqrv := nqrv + [if pe.id < |cs.regs| then cs.regs[pe.id] else QrValue(InReg(0), 0)];
      } else {
        if pe.id < |cs.regs| {
          var r := cs.regs[pe.id];
          code := code.Do(ApplyPexpr(r.ty == 0, KeyAt(cs, i), pe.ftype, RegOf(r), CellOf(cs, Pv(i + 1))));
        }
        nqrv := nqrv + [QrValue(InCell(CellOf(cs, Pv(i + 1))), TypeId(pe.ftype))];
      }
    }
  }

  method EmitLimit(cs: Cg, limit: int) returns (own: Blocks)
    ensures own == LimitBlocks(cs, limit)
  {
    var entry, reached, cont := cs.nextBB, cs.nextBB + 1, cs.nextBB + 2;
    var count, counter := cs.nextReg, CellOf(cs, ResCounter);
    own := map[entry := Block(Nil.Do(Let(count, L(counter))), Some(CondBr(Eq(R(count), K(limit % TWO_64)), reached,
                                                                          cont)))];
    own := own[reached := Goto(cs.scanEnd)];
    own := own[cont := Block(Nil.Do(Store(Succ(count), counter)), None)];
  }

  // ----- joins -----

  // Reading the materialized tuple into registers.
  method EmitConcat(types: seq<nat>, tp: Reg, base: Reg) returns (code: Code)
    ensures code == ConcatCode(types, tp, base, |types|)
  {
    code := Nil;
    for i := 0 to |types|
      invariant code == ConcatCode(types, tp, base, i)
    {
      if types[i] == 0 {
        code := code.Do(NodeResAt(base + i, tp, i));
      } else {
        code := code.Do(RshipResAt(base + i, tp, i));
      }
    }
  }

  // The registers the join adds to the tuple.
  method PushTypes(cs: Cg, kind: JoinKind, types: seq<nat>) returns (regs: seq<QrValue>)
    ensures regs == JoinRegs(cs, kind, types)
  {
    regs := cs.regs;
    for i := 0 to |types|
      invariant regs == cs.regs + ConcatRegs(types, BaseReg(cs))[..i]
    {
      regs := regs + [QrValue(InReg(BaseReg(cs) + i), if types[i] == 0 then 0 else 1)];
    }
    assert ConcatRegs(types, BaseReg(cs))[..|types|] == ConcatRegs(types, BaseReg(cs));
    if kind != Cross {
      regs := regs + [QrValue(InCell(CellOf(cs, Dangling)), 7)];
    }
  }

  method EmitJoinLoop(cs: Cg, kind: JoinKind) returns (own: Blocks)
    ensures own == JoinLoopBlocks(cs, kind)
  {
    var n, tp := cs.nextBB, cs.nextReg + 1;
    var entry, leftOuter, concat, incr, consume, end := n, n + 1, n + 3, n + 4, n + 7, n + 8;
    var curIdx, maxIdx, dangling := CellOf(cs, CurIdx), CellOf(cs, MaxIdx), CellOf(cs, Dangling);
    own := map[consume := EMPTY];
    var code := Nil.Do(Store(K(1), dangling));
    code := code.Do(Store(K(0), curIdx));
    code := code.Do(JoinSize(cs.nextReg, cs.nextJid));
    code := code.Do(Store(R(cs.nextReg), maxIdx));
    var cond, body, epilog := n + 9, n + 10, n + 11;
    own := own[entry := Block(code, Some(Br(cond)))];
    own := own[cond := WhileHead(curIdx, maxIdx, body, end)];
    own := own[body := Block(Nil.Do(JoinTpAt(tp, cs.nextJid, L(curIdx))),
                             Some(Br(if kind == Cross then concat else leftOuter)))];
    own := own[epilog := Goto(cond)];
    code := Nil.Do(Let(cs.nextReg + 3, L(curIdx)));
    code := code.Do(Store(Succ(cs.nextReg + 3), curIdx));
    own := own[incr := Block(code, Some(CondBr(Eq(L(dangling), K(1)), concat, cond)))];
    own := own[end := Goto(cs.mainReturn)];
  }

  method EmitCross(cs: Cg, types: seq<nat>) returns (own: Blocks)
    ensures own == CrossBlocks(cs, types)
  {
    var n, curIdx := cs.nextBB, CellOf(cs, CurIdx);
    var leftOuter, forNext, concat, undang, ret, consume := n + 1, n + 2, n + 3, n + 5, n + 6, n + 7;
    own := map[leftOuter := EMPTY, forNext := EMPTY, undang := EMPTY, ret := EMPTY];
    var code := EmitConcat(types, TpReg(cs), BaseReg(cs));
    code := code.Do(Let(cs.nextReg + 4, L(curIdx)));
    code := code.Do(Store(Succ(cs.nextReg + 4), curIdx));
    own := own[concat := Block(code, Some(Br(consume)))];
  }

  method EmitLeftOuter(cs: Cg, types: seq<nat>, lhsPos: nat, rhsPos: nat) returns (own: Blocks)
    ensures own == LeftOuterBlocks(cs, types, lhsPos, rhsPos)
  {
    hide ConcatCode;
    var n, r, tp, rhsId := cs.nextBB, cs.nextReg, cs.nextReg + 1, cs.nextReg + 2;
    var leftOuter, forNext, concat, incr, undang, ret, consume := n + 1, n + 2, n + 3, n + 4, n + 5, n + 6, n + 7;
    var ra, ridx := CellOf(cs, Ra), CellOf(cs, Ridx);
    var code := Nil.Do(NodeResAt(r + 5, tp, rhsPos));
    code := code.Do(Let(rhsId, NodeF(r + 5, 1)));
    code := code.Do(Let(r + 6, NodeF(RegAt(cs, lhsPos), 2)));
    code := code.Do(Store(R(r + 6), CellOf(cs, CrossJoinIdx)));
    code := code.Do(Alloca(ra)).Do(Alloca(ridx));
    code := code.Do(Store(R(r + 6), ridx));
    var rcond, rbody, repilog := n + 12, n + 13, n + 14;
    own := map[leftOuter := Block(code, Some(Br(rcond)))];
    own := own[rcond := WhileHead(ridx, CellOf(cs, RhsAlloca), rbody, incr)];
    code := Nil.Do(RshipById(r + 7, L(ridx)));
    code := code.Do(Store(R(r + 7), ra));
    own := own[rbody := Block(code, Some(CondBr(Eq(R(rhsId), RshipF(r + 7, 3)), undang, forNext)))];
    own := own[repilog := Goto(rcond)];
    code := Nil.Do(Let(r + 7, L(ra)));
    code := code.Do(Store(RshipF(r + 7, 4), ridx));
    own := own[forNext := Block(code, Some(Br(rcond)))];
    own := own[undang := Block(Nil.Do(Store(K(0), CellOf(cs, Dangling))), Some(Br(concat)))];
    own := own[ret := Block(Nil, Some(CondBr(Ult(L(ridx), K(UNKNOWN_ID)), forNext, n + 9)))];
    code := EmitConcat(types, tp, BaseReg(cs));
    own := own[concat := Block(code, Some(Br(consume)))];
  }

  method EmitJoin(cs: Cg, kind: JoinKind, types: seq<nat>) returns (own: Blocks)
    ensures own == JoinBlocks(cs, kind, types)
  {
    hide JoinLoopBlocks, CrossBlocks, LeftOuterBlocks;
    own := EmitJoinLoop(cs, kind);
    var more;
    match kind {
      case Cross => more := EmitCross(cs, types);
      case LeftOuter(i, j) => more := EmitLeftOuter(cs, types, i, j);
    }
    own := own + more;
  }

  // ----- the ends of a pipeline -----

  method EmitCollect(regs: seq<QrValue>) returns (code: Code)
    ensures code == CollectCode(regs, |regs|)
  {
    code := Nil;
    for i := 0 to |regs|
      invariant code == CollectCode(regs, i)
    {
      var typeId := if regs[i].ty == 7 then 2 else regs[i].ty;
      code := code.Do(MatReg(regs[i].loc, typeId));
    }
  }

  method EmitEnd(regs: seq<QrValue>) returns (code: Code)
    ensures code == EndCode(regs, |regs|)
  {
    code := Nil;
    for i := 0 to |regs|
      invariant code == EndCode(regs, i)
    {
      if regs[i].ty == 0 {
        code := code.Do(MatNode(RegOf(regs[i])));
      } else {
        code := code.Do(MatRship(RegOf(regs[i])));
      }
    }
  }

  // ----- access paths -----

  method EmitExit(front: Option<BlockId>) returns (exit: Block)
    ensures forall cs: Cg :: cs.entry == front ==> exit == ScanExit(cs)
  {
    match front {
      case Some(nextOp) => exit := Goto(nextOp);
      case None => exit := Block(Nil.Do(Finish), Some(Ret));
    }
  }

  // The start of every access path: the counter, the bound and the number of items in a set.
  method EmitInit(cs: Cg) returns (code: Code)
    ensures code == InitCode(cs)
  {
    code := Nil.Do(Store(K(0), CellOf(cs, ResCounter)));
    code := code.Do(Store(K(UNKNOWN_ID), CellOf(cs, RhsAlloca)));
    code := code.Do(Store(K(MAX_PITEM_CNT), CellOf(cs, MaxCnt)));
  }

  method EmitScan(cs: Cg, exit: Block) returns (own: Blocks)
    ensures own == ScanBlocks(cs, exit)
  {
    var n, labelCode, it, node, raw := cs.nextBB, cs.nextReg, cs.nextReg + 1, cs.nextReg + 2, cs.nextReg + 3;
    var entry, scanEnd, consume, cond, body, epilog, end := n, n + 1, n + 2, n + 3, n + 4, n + 5, n + 6;
    own := map[consume := EMPTY];
    var code := EmitInit(cs);
    code := code.Do(LookupLabel(labelCode, cs.opId));
    code := code.Do(VecBegin(it));
    own := own[entry := Block(code, Some(Br(cond)))];
    // while_loop
    code := Nil.Do(VecEnd(cs.nextReg + 4, it));
    own := own[cond := Block(code, Some(CondBr(Eq(R(cs.nextReg + 4), K(0)), body, end)))];
    code := Nil.Do(NodeFromIt(raw, it));
    code := code.Do(ValidNode(node, raw));
    own := own[body := Block(code, Some(CondBr(Eq(NodeF(node, 5), R(labelCode)), consume, epilog)))];
    code := Nil.Do(VecNext(it));
    code := code.Do(VecEnd(cs.nextReg + 5, it));
    own := own[epilog := Block(code, Some(CondBr(Eq(R(cs.nextReg + 5), K(0)), body, end)))];
    own := own[end := Goto(scanEnd)];
    own := own[scanEnd := exit];
  }

  method EmitIndex(cs: Cg, exit: Block) returns (own: Blocks)
    ensures own == IndexBlocks(cs, exit)
  {
    var n, node := cs.nextBB, cs.nextReg + 2;
    var entry, scanEnd, consume := n, n + 1, n + 2;
    own := map[consume := EMPTY];
    var code := EmitInit(cs);
    code := code.Do(IndexGet(node, cs.opId));
    own := own[entry := Block(code, Some(CondBr(IsNull(node), scanEnd, consume)))];
    own := own[scanEnd := exit];
  }
}
