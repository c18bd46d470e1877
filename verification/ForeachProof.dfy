/** The relationship loop of ForeachRship carries out its operator, given that the code after it
    does. Nested loops share the cell of the current id: whatever the body leaves in it, the loop
    goes on from its own relationship register. */
module ForeachProof {
  import opened Storage
  import opened Ir
  import opened Runtime
  import opened Machine
  import opened Plan
  import opened Algebra
  import opened TupleAtATime
  import opened Codegen
  import opened Shape
  import opened Simulation

  // ----- the blocks -----

  // Where both forms of the loop start.
  lemma RunHead(p: Prog, cs: Cg, d: Dir, s: State, node: nat, lbl: string) returns (s1: State)
    requires RegHas(s, LastReg(cs), NodeV(node)) && LastReg(cs) < cs.nextReg && ArgAt(p.w, cs.opId) == LabelArg(lbl)
    ensures Exec(p.w, ForeachHead(cs, d), s) == Ok(s1)
    ensures RegHas(s1, cs.nextReg, IntV(p.w.g.code(lbl))) && s1.rt == s.rt && RegsKept(s, s1, cs.nextReg)
    ensures s1.cells == s.cells[CellOf(cs, RhsAlloca) := IntV(INT64_MAX)]
                               [CellOf(cs, LhsAlloca) := IntV(First(p.w.g.node(node), d))]
  {
    hide Exec, Exec1;
    Unfold(p.w);
    s1 := Exec(p.w, ForeachHead(cs, d), s).s;
  }

  lemma RunBody(p: Prog, cs: Cg, bb: BlockId, consume: BlockId, next: BlockId, s: State, id: nat, code: nat)
    returns (s1: State)
    requires Has(p, bb, ForeachBody(cs, consume, next))
    requires CellHas(s, CellOf(cs, LhsAlloca), IntV(id)) && id < INT64_MAX && RegHas(s, cs.nextReg, IntV(code))
    ensures Reaches(p, Run(bb, 0, s), Run(if p.w.g.rship(id).labelCode == code then consume else next, 0, s1))
    ensures Scratch(s, s1, cs.nextReg + 1) && RegHas(s1, LoopReg(cs), RshipV(id))
  {
    hide Exec, Exec1, Reaches;
    Unfold(p.w);
    s1 := Exec(p.w, p.blocks[bb].code, s).s;
    RunBlock(p, bb, s);
  }

  lemma RunNext(p: Prog, cs: Cg, bb: BlockId, cond: BlockId, d: Dir, s: State, id: nat) returns (s1: State)
    requires Has(p, bb, ForeachNext(cs, d, cond)) && RegHas(s, LoopReg(cs), RshipV(id))
    ensures Reaches(p, Run(bb, 0, s), Run(cond, 0, s1))
    ensures s1 == s.(cells := s.cells[CellOf(cs, LhsAlloca) := IntV(Next(p.w.g.rship(id), d))])
  {
    hide Exec, Exec1, Reaches;
    Unfold(p.w);
    s1 := Exec(p.w, p.blocks[bb].code, s).s;
    RunBlock(p, bb, s);
  }

  // ----- the loop -----

  /** What the visit of a single-hop traversal leaves behind: its blocks in the program, and the
      state in which the next operator is visited. */
  ghost predicate Setup(p: Prog, cs: Cg, r: Rest, cs1: Cg) {
    && r.Foreach? && !IsVariable(r) && Visited(cs, r, cs1)
    && cs1.prevBB == cs.nextBB + 3 && cs1.mainReturn == cs.nextBB + 2 && Prev(cs1) == EMPTY
    && cs1.regs == cs.regs + [QrValue(InReg(LoopReg(cs)), 1)] && cs1.nextReg == cs.nextReg + 3
    && Has(p, cs.nextBB + 1, Goto(cs.mainReturn))
    && Has(p, cs.nextBB + 2, ForeachNext(cs, r.dir, cs.nextBB + 7))
    && Has(p, cs.nextBB + 7, WhileHead(CellOf(cs, LhsAlloca), CellOf(cs, RhsAlloca), cs.nextBB + 8, cs.nextBB + 1))
    && Has(p, cs.nextBB + 8, ForeachBody(cs, cs.nextBB + 3, cs.nextBB + 2))
  }

  ghost predicate InLoop(p: Prog, cs: Cg, r: Rest, s: State, t: Tuple, k: Flow)
    requires r.Foreach?
  {
    Holding(p, cs, r, s, t, k) && RegHas(s, cs.nextReg, IntV(p.w.g.code(r.lbl)))
  }

  // At the loop head with `ids` still to come.
  ghost predicate AtHead(p: Prog, cs: Cg, r: Rest, s: State, t: Tuple, k: Flow, ids: seq<nat>)
    requires r.Foreach?
  {
    && InLoop(p, cs, r, s, t, k) && CellVal(s, CellOf(cs, LhsAlloca)).IntV?
    && Linked(p.w.g, r.dir, CellVal(s, CellOf(cs, LhsAlloca)).n, ids)
  }

  lemma LoopEnd(p: Prog, cs: Cg, r: Rest, cs1: Cg, s: State, t: Tuple, k: Flow)
    requires Setup(p, cs, r, cs1) && AtHead(p, cs, r, s, t, k, [])
    ensures Result(p, cs, r, s, Run(cs.nextBB + 7, 0, s), Nothing(k), s)
  {
    hide Reaches, Matches, JoinReady, Visited, ForeachBody, ForeachNext;
    var n := cs.nextBB;
    RunWhile(p, n + 7, CellOf(cs, LhsAlloca), CellOf(cs, RhsAlloca), n + 8, n + 1, s);
    RunGoto(p, n + 1, cs.mainReturn, s);
    Trans(p, Run(n + 7, 0, s), Run(n + 1, 0, s), Run(cs.mainReturn, 0, s));
    RanQuiet(p, cs, r, s, k, s);
  }

  // From the head to the body's verdict on the first id.
  lemma HeadRun(p: Prog, cs: Cg, r: Rest, cs1: Cg, s: State, t: Tuple, k: Flow, ids: seq<nat>) returns (s1: State)
    requires Setup(p, cs, r, cs1) && AtHead(p, cs, r, s, t, k, ids) && ids != []
    ensures Scratch(s, s1, cs.nextReg + 1) && RegHas(s1, LoopReg(cs), RshipV(ids[0]))
    ensures Reaches(p, Run(cs.nextBB + 7, 0, s),
                    Run(if p.w.g.rship(ids[0]).labelCode == p.w.g.code(r.lbl) then cs.nextBB + 3 else cs.nextBB + 2,
                        0, s1))
  {
    hide Reaches, Visited, Matches, CacheOk, JoinReady, ForeachBody, ForeachNext;
    var n, code := cs.nextBB, p.w.g.code(r.lbl);
    RunWhile(p, n + 7, CellOf(cs, LhsAlloca), CellOf(cs, RhsAlloca), n + 8, n + 1, s);
    s1 := RunBody(p, cs, n + 8, n + 3, n + 2, s, ids[0], code);
    Trans(p, Run(n + 7, 0, s), Run(n + 8, 0, s), Run(if p.w.g.rship(ids[0]).labelCode == code then n + 3 else n + 2, 0,
                                                     s1));
  }

  lemma HeadStep(p: Prog, cs: Cg, r: Rest, cs1: Cg, s: State, t: Tuple, k: Flow, ids: seq<nat>) returns (s1: State)
    requires Setup(p, cs, r, cs1) && AtHead(p, cs, r, s, t, k, ids) && ids != []
    ensures Ran(p, cs, r, s, Nothing(k), s1) && InLoop(p, cs, r, s1, t, k) && RegHas(s1, LoopReg(cs), RshipV(ids[0]))
    ensures Reaches(p, Run(cs.nextBB + 7, 0, s),
                    Run(if p.w.g.rship(ids[0]).labelCode == p.w.g.code(r.lbl) then cs.nextBB + 3 else cs.nextBB + 2,
                        0, s1))
  {
    hide Reaches, Ran, LayoutOk, Holding, Linked, ForeachBody, ForeachNext, WhileHead;
    s1 := HeadRun(p, cs, r, cs1, s, t, k, ids);
    OwnScratch(p, cs, r, s, t, k, s1);
  }

  // The backflow block moves the head on to the rest of the chain.
  lemma Advance(p: Prog, cs: Cg, r: Rest, cs1: Cg, s: State, t: Tuple, k: Flow, ids: seq<nat>) returns (s1: State)
    requires Setup(p, cs, r, cs1) && InLoop(p, cs, r, s, t, k) && ids != [] && RegHas(s, LoopReg(cs), RshipV(ids[0]))
    requires Linked(p.w.g, r.dir, Next(p.w.g.rship(ids[0]), r.dir), ids[1..])
    ensures Reaches(p, Run(cs.nextBB + 2, 0, s), Run(cs.nextBB + 7, 0, s1))
    ensures Ran(p, cs, r, s, Nothing(k), s1) && AtHead(p, cs, r, s1, t, k, ids[1..])
  {
    hide Reaches, Linked;
    s1 := RunNext(p, cs, cs.nextBB + 2, cs.nextBB + 7, r.dir, s, ids[0]);
    Own(p, cs, r, s, t, k, s1);
  }

  // The operators below take the tuple of the current relationship.
  lemma Consume(p: Prog, cs: Cg, r: Rest, cs1: Cg, s: State, t: Tuple, k: Flow, id: nat) returns (s1: State)
    requires Setup(p, cs, r, cs1) && Simulates(p, cs1, r.next)
    requires InLoop(p, cs, r, s, t, k) && RegHas(s, LoopReg(cs), RshipV(id))
    ensures var o := Push(p.w, r.next, t + [RshipV(id)], k);
            && Ran(p, cs, r, s, o, s1)
            && (o.exit == Back ==>
                  && Reaches(p, Run(cs.nextBB + 3, 0, s), Run(cs.nextBB + 2, 0, s1))
                  && InLoop(p, cs, r, s1, t, o.k) && RegHas(s1, LoopReg(cs), RshipV(id)))
            && (o.exit != Back ==> Result(p, cs, r, s, Run(cs.nextBB + 3, 0, s), o, s1))
  {
    hide Reaches, Push, Ran, Result;
    assert Pre(p, cs1, r.next, s, t + [RshipV(id)], k);
    s1 := Below(p, cs, r, cs1, s, t, k, t + [RshipV(id)], k);
  }

  /** The loop enumerates exactly the relationships of the chain that carry the label, in order. */
  lemma {:induction false} Loop(p: Prog, cs: Cg, r: Rest, cs1: Cg, s: State, t: Tuple, k: Flow, ids: seq<nat>)
    returns (s1: State)
    requires Setup(p, cs, r, cs1) && Simulates(p, cs1, r.next) && AtHead(p, cs, r, s, t, k, ids)
    ensures Result(p, cs, r, s, Run(cs.nextBB + 7, 0, s),
                   PushAll(p.w, r.next, EdgeTuples(p.w.g, p.w.g.code(r.lbl), t, ids), k), s1)
    decreases |ids|
  {
    hide Reaches, Push, InLoop, Ran, Result, Simulates;
    var n, w, code := cs.nextBB, p.w, p.w.g.code(r.lbl);
    if ids == [] {
      LoopEnd(p, cs, r, cs1, s, t, k);
      s1 := s;
    } else {
      var s2 := HeadStep(p, cs, r, cs1, s, t, k, ids);
      var tail := EdgeTuples(w.g, code, t, ids[1..]);
      if w.g.rship(ids[0]).labelCode == code {
        var t1 := t + [RshipV(ids[0])];
        var o := Push(w, r.next, t1, k);
        var s3 := Consume(p, cs, r, cs1, s2, t, k, ids[0]);
        assert EdgeTuples(w.g, code, t, ids) == [t1] + tail;
        PushAllCons(w, r.next, t1, tail, k);
        if o.exit == Back {
          var s4 := Advance(p, cs, r, cs1, s3, t, o.k, ids);
          s1 := Loop(p, cs, r, cs1, s4, t, o.k, ids[1..]);
          var rest := PushAll(w, r.next, tail, o.k);
          ResultAfter(p, cs, r, s3, Run(n + 2, 0, s3), Nothing(o.k), s4, Run(n + 7, 0, s4), rest, s1);
          ResultAfter(p, cs, r, s2, Run(n + 3, 0, s2), o, s3, Run(n + 2, 0, s3), rest, s1);
        } else {
          s1 := s3;
        }
        ResultAfter(p, cs, r, s, Run(n + 7, 0, s), Nothing(k), s2, Run(n + 3, 0, s2),
                    PushAll(w, r.next, [t1] + tail, k), s1);
      } else {
        assert EdgeTuples(w.g, code, t, ids) == [] + tail == tail;
        var s4 := Advance(p, cs, r, cs1, s2, t, k, ids);
        s1 := Loop(p, cs, r, cs1, s4, t, k, ids[1..]);
        var rest := PushAll(w, r.next, tail, k);
        ResultAfter(p, cs, r, s2, Run(n + 2, 0, s2), Nothing(k), s4, Run(n + 7, 0, s4), rest, s1);
        ResultAfter(p, cs, r, s, Run(n + 7, 0, s), Nothing(k), s2, Run(n + 2, 0, s2), rest, s1);
      }
    }
  }

  // ----- the operator -----

  lemma Table(cs: Cg, d: Dir)
    ensures var own, n := ForeachBlocks(cs, d), cs.nextBB;
            && Fresh(own, n, n + 10)
            && Holds(own, n, Block(ForeachHead(cs, d), Some(Br(n + 7))))
            && Holds(own, n + 1, Goto(cs.mainReturn))
            && Holds(own, n + 2, ForeachNext(cs, d, n + 7))
            && Holds(own, n + 3, EMPTY)
            && Holds(own, n + 7, WhileHead(CellOf(cs, LhsAlloca), CellOf(cs, RhsAlloca), n + 8, n + 1))
            && Holds(own, n + 8, ForeachBody(cs, n + 3, n + 2))
  {
  }

  lemma MakeSetup(p: Prog, cs: Cg, r: Rest)
    requires Ready(p, cs, r) && r.Foreach? && !IsVariable(r)
    ensures Setup(p, cs, r, After(r, cs))
    ensures Has(p, cs.nextBB, Block(ForeachHead(cs, r.dir), Some(Br(cs.nextBB + 7))))
    ensures Has(p, cs.prevBB, Seal(Prev(cs), cs.nextBB))
  {
    hide ForeachBlocks, ForeachHead, CompileRest, Continues;
    Table(cs, r.dir);
    OwnEmitted(p, cs, r, ForeachBlocks(cs, r.dir), cs.nextBB + 10);
    VisitKeeps(r, cs);
  }

  // The last register of the tuple is a node, and the label is in the operator's slot.
  lemma Inputs(p: Prog, cs: Cg, r: Rest, s: State, t: Tuple)
    requires Ready(p, cs, r) && r.Foreach? && Matches(cs.regs, t, s)
    ensures t != [] && t[|t| - 1].NodeV? && RegHas(s, LastReg(cs), t[|t| - 1])
    ensures LastReg(cs) < cs.nextReg && ArgAt(p.w, cs.opId) == LabelArg(r.lbl)
  {
    hide CompileRest;
    ReadArg(p, cs, r);
    assert MatchesOne(cs.regs[|cs.regs| - 1], t[|t| - 1], s);
  }

  // The entry block.
  lemma RunEntry(p: Prog, cs: Cg, r: Rest, s: State, t: Tuple, k: Flow) returns (s1: State)
    requires r.Foreach? && LayoutOk(cs, r) && Holding(p, cs, r, s, t, k) && LastReg(cs) < cs.nextReg
    requires t != [] && t[|t| - 1].NodeV? && RegHas(s, LastReg(cs), t[|t| - 1])
             && ArgAt(p.w, cs.opId) == LabelArg(r.lbl)
    ensures Exec(p.w, ForeachHead(cs, r.dir), s) == Ok(s1) && Ran(p, cs, r, s, Nothing(k), s1)
            && Holding(p, cs, r, s1, t, k)
    ensures RegHas(s1, cs.nextReg, IntV(p.w.g.code(r.lbl))) && RegsKept(s, s1, cs.nextReg) && s1.rt == s.rt
    ensures CellHas(s1, CellOf(cs, LhsAlloca), IntV(First(p.w.g.node(t[|t| - 1].p), r.dir)))
  {
    hide Exec, ForeachHead, Matches, JoinReady, CacheOk, LocOk;
    s1 := RunHead(p, cs, r.dir, s, t[|t| - 1].p, r.lbl);
    Own(p, cs, r, s, t, k, s1);
  }

  // From the open block to the loop head.
  lemma Start(p: Prog, cs: Cg, r: Rest, s: State, t: Tuple, k: Flow) returns (s1: State)
    requires Ready(p, cs, r) && r.Foreach? && !IsVariable(r) && Pre(p, cs, r, s, t, k)
    ensures t != [] && t[|t| - 1].NodeV?
    ensures Reaches(p, Entering(cs, s), Run(cs.nextBB + 7, 0, s1)) && Ran(p, cs, r, s, Nothing(k), s1)
    ensures AtHead(p, cs, r, s1, t, k, Chain(p.w.g, r.dir, First(p.w.g.node(t[|t| - 1].p), r.dir)))
  {
    hide Reaches, After, CompileRest, Setup, Exec, ForeachHead, Ran, Matches, Calm, GraphOk, Linked;
    var n := cs.nextBB;
    MakeSetup(p, cs, r);
    Inputs(p, cs, r, s, t);
    ChainIsLinked(p.w.g, t[|t| - 1].p, r.dir);
    s1 := RunEntry(p, cs, r, s, t, k);
    RunBlock(p, n, s);
    Leave(p, cs, n, s);
    Trans(p, Entering(cs, s), Run(n, 0, s), Run(n + 7, 0, s1));
  }

  lemma Enter(p: Prog, cs: Cg, r: Rest, s: State, t: Tuple, k: Flow) returns (s1: State)
    requires Ready(p, cs, r) && r.Foreach? && !IsVariable(r) && Simulates(p, After(r, cs), r.next)
             && Pre(p, cs, r, s, t, k)
    ensures Post(p, cs, r, s, Push(p.w, r, t, k), s1)
  {
    MakeSetup(p, cs, r);
    hide Reaches, After, CompileRest, Setup, Pre, Simulates, Ran, AtHead;
    var s0 := Start(p, cs, r, s, t, k);
    var ids := Chain(p.w.g, r.dir, First(p.w.g.node(t[|t| - 1].p), r.dir));
    s1 := Loop(p, cs, r, After(r, cs), s0, t, k, ids);
    ResultAfter(p, cs, r, s, Entering(cs, s), Nothing(k), s0, Run(cs.nextBB + 7, 0, s0), Push(p.w, r, t, k), s1);
  }

  // A traversal carries out its operator if the operators below it do.
  lemma ForeachSimulates(p: Prog, cs: Cg, r: Rest)
    requires Ready(p, cs, r) && r.Foreach? && !IsVariable(r) && Simulates(p, After(r, cs), r.next)
    ensures Simulates(p, cs, r)
  {
    hide Ready, Reaches, Result, Push, After, Pre;
    forall s, t, k | Pre(p, cs, r, s, t, k)
      ensures exists s1 :: Post(p, cs, r, s, Push(p.w, r, t, k), s1)
    {
      var s1 := Enter(p, cs, r, s, t, k);
    }
  }
}
