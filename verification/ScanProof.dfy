/** The access paths: the loop over all nodes with a label, and the lookup through an index. Every
    tuple is pushed through the rest of the pipeline before the next one is fetched. */
module ScanProof {
  import opened Storage
  import opened Ir
  import opened Runtime
  import opened Machine
  import opened Plan
  import opened Algebra
  import opened TupleAtATime
  import opened Codegen
  import opened Shape
  import opened Simulation

  function OwnBlocks(p: Plan, cs: Cg): Blocks {
    if p.scan.ScanLabel? then ScanBlocks(Begun(p, cs), ScanExit(cs)) else IndexBlocks(Begun(p, cs), ScanExit(cs))
  }

  // ----- the effect of an access path -----

  // What the tuples fetched so far have done.
  ghost predicate Swept(p: Prog, cs: Cg, r: Rest, s: State, o: Outcome, s1: State) {
    && (o.exit != Raised ==> Calm(p.w.g, cs.pipe, s1, o.k))
    && Sunk(p.w.g, cs, r, s.rt, s1.rt, o.emit)
    && (!HasVar(r) ==> s1.rt.fevList == s.rt.fevList && s1.rt.fevPos == s.rt.fevPos)
    && (!HasProject(r) ==> SameTables(s.rt, s1.rt))
  }

  // Control ends at the end of the access path, unless a projection raises.
  ghost predicate Leaves(p: Prog, cs: Cg, from_: Config, exit: Exit, s1: State) {
    Reaches(p, from_, if exit == Raised then Thrown(s1) else Run(cs.scanEnd, 0, s1))
  }

  ghost predicate Sweeps(p: Prog, cs: Cg, r: Rest, s: State, from_: Config, o: Outcome, s1: State) {
    Swept(p, cs, r, s, o, s1) && Leaves(p, cs, from_, o.exit, s1)
  }

  lemma SweptSeq(p: Prog, cs: Cg, r: Rest, s: State, a: Outcome, s1: State, b: Outcome, s2: State)
    requires Swept(p, cs, r, s, a, s1) && a.exit == Back && Swept(p, cs, r, s1, b, s2)
    ensures Swept(p, cs, r, s, Both(a, b), s2)
  {
    hide Calm, Sunk;
    SunkSeq(p.w.g, cs, r, s.rt, s1.rt, s2.rt, a.emit, b.emit);
  }

  lemma SweepsAfter(p: Prog, cs: Cg, r: Rest, s: State, from_: Config, a: Outcome, s1: State, mid: Config, b: Outcome,
        s2: State)
    requires Swept(p, cs, r, s, a, s1) && a.exit == Back && Reaches(p, from_, mid) && Sweeps(p, cs, r, s1, mid, b, s2)
    ensures Sweeps(p, cs, r, s, from_, Both(a, b), s2)
    ensures a.emit == [] ==> Both(a, b) == b
  {
    hide Reaches, Swept;
    SweptSeq(p, cs, r, s, a, s1, b, s2);
    Trans(p, from_, mid, if b.exit == Raised then Thrown(s2) else Run(cs.scanEnd, 0, s2));
    assert a.emit == [] ==> a.emit + b.emit == b.emit;
  }

  // Steps of the access path's own.
  lemma SweptQuiet(p: Prog, cs: Cg, r: Rest, s: State, k: Flow, s1: State)
    requires Calm(p.w.g, cs.pipe, s1, k) && s1.rt.rows == s.rt.rows && s1.rt.rhs == s.rt.rhs && SameTables(s.rt, s1.rt)
    requires s1.rt.fevList == s.rt.fevList && s1.rt.fevPos == s.rt.fevPos
    ensures Swept(p, cs, r, s, Nothing(k), s1)
  {
    assert s.rt.rows + RowsOf(p.w.g, []) == s.rt.rows;
    assert forall j :: RhsAt(s.rt, j) + [] == RhsAt(s.rt, j);
  }

  // ----- between two tuples -----

  ghost predicate Between(p: Prog, cs: Cg, r: Rest, s: State, k: Flow) {
    Calm(p.w.g, cs.pipe, s, k) && JoinReady(cs, r, s.rt, k.input)
  }

  // The operators of the pipeline take the node, and control comes back for the next or leaves.
  lemma Consume(p: Prog, cs: Cg, r: Rest, s: State, v: Val, k: Flow) returns (s1: State)
    requires Simulates(p, cs, r) && Prev(cs) == EMPTY && cs.regs == [QrValue(InReg(LastReg(cs)), 0)]
             && (!EndsInCollect(r) ==> cs.jids != [] && cs.jids[0] < cs.nextJid)
    requires Between(p, cs, r, s, k) && RegHas(s, LastReg(cs), v) && v.NodeV?
    ensures var o := Push(p.w, r, [v], k);
            && Swept(p, cs, r, s, o, s1) && RegsKept(s, s1, cs.nextReg) && s1.rt.iters == s.rt.iters
            && (o.exit == Back ==>
                  Reaches(p, Run(cs.prevBB, 0, s), Run(cs.mainReturn, 0, s1)) && Between(p, cs, r, s1, o.k))
            && (o.exit != Back ==> Sweeps(p, cs, r, s, Run(cs.prevBB, 0, s), o, s1))
  {
    hide Reaches, Push, Calm;
    s1 := Simulate(p, cs, r, s, [v], k);
    InputStays(p.w, r, [v], k);
  }

  // ----- the loop over all nodes -----

  // What the visit leaves for the first operator of the pipeline.
  ghost predicate Begins(cs: Cg, r: Rest, cs1: Cg) {
    && cs1.prevBB == cs.nextBB + 2 && Prev(cs1) == EMPTY && cs1.scanEnd == cs.nextBB + 1 && cs1.pipe == cs.pipe
    && cs1.regs == [QrValue(InReg(cs.nextReg + 2), 0)] && cs.nextReg + 2 < cs1.nextReg
    && cs1.jids == cs.jids && cs1.nextJid == cs.nextJid
    && (!EndsInCollect(r) ==> cs.jids != [] && cs.jids[0] < cs.nextJid)
  }

  ghost predicate LoopSetup(p: Prog, cs: Cg, r: Rest, cs1: Cg) {
    && Begins(cs, r, cs1) && cs1.mainReturn == cs.nextBB + 5
    && Has(p, cs.nextBB + 3, IteratorTest(Nil, cs.nextReg + 4, ItReg(cs), cs.nextBB + 4, cs.nextBB + 6))
    && Has(p, cs.nextBB + 4, ScanBody(cs, cs.nextBB + 2, cs.nextBB + 5))
    && Has(p, cs.nextBB + 5, IteratorTest(Nil.Do(VecNext(ItReg(cs))), cs.nextReg + 5, ItReg(cs), cs.nextBB + 4,
                                          cs.nextBB + 6))
    && Has(p, cs.nextBB + 6, Goto(cs.nextBB + 1))
  }

  // The iterator stands at node i.
  ghost predicate At(p: Prog, cs: Cg, r: Rest, cs1: Cg, s: State, k: Flow, it: nat, i: nat, code: nat) {
    && Between(p, cs1, r, s, k)
    && RegHas(s, ItReg(cs), ItV(it)) && it < |s.rt.iters| && s.rt.iters[it] == i
    && RegHas(s, cs.nextReg, IntV(code))
  }

  // A step of the loop's own.
  ghost predicate Tick(cs: Cg, s: State, s1: State) {
    && s1.cells == s.cells && s1.rt == s.rt.(iters := s1.rt.iters)
    && forall i :: i in s.regs && i < cs.nextReg + 2 ==> i in s1.regs && s1.regs[i] == s.regs[i]
  }

  lemma TickQuiet(p: Prog, cs: Cg, r: Rest, cs1: Cg, s: State, k: Flow, s1: State)
    requires Between(p, cs1, r, s, k) && Tick(cs, s, s1)
    ensures Swept(p, cs1, r, s, Nothing(k), s1) && Between(p, cs1, r, s1, k)
  {
    SweptQuiet(p, cs1, r, s, k, s1);
  }

  // The test of the iterator, in the head and in the epilog.
  lemma RunTest(p: Prog, cs: Cg, bb: BlockId, c: Code, d: Reg, s: State, s0: State, it: nat, i: nat) returns (s1: State)
    requires Has(p, bb, IteratorTest(c, d, ItReg(cs), cs.nextBB + 4, cs.nextBB + 6)) && Exec(p.w, c, s) == Ok(s0)
    requires RegHas(s0, ItReg(cs), ItV(it)) && it < |s0.rt.iters| && s0.rt.iters[it] == i
    ensures s1 == Set(s0, d, Bit(i >= |p.w.g.nodes|))
    ensures Reaches(p, Run(bb, 0, s), Run(if i < |p.w.g.nodes| then cs.nextBB + 4 else cs.nextBB + 6, 0, s1))
  {
    hide Reaches, Exec;
    s1 := Set(s0, d, Bit(i >= |p.w.g.nodes|));
    ExecThen(p.w, c, VecEnd(d, ItReg(cs)), s, s0, s1);
    RunBlock(p, bb, s);
  }

  // The next node.
  lemma Advance(p: Prog, cs: Cg, r: Rest, cs1: Cg, s: State, k: Flow, it: nat, i: nat, code: nat) returns (s1: State)
    requires LoopSetup(p, cs, r, cs1) && At(p, cs, r, cs1, s, k, it, i, code)
    ensures At(p, cs, r, cs1, s1, k, it, i + 1, code) && Swept(p, cs1, r, s, Nothing(k), s1)
    ensures Reaches(p, Run(cs.nextBB + 5, 0, s),
                    Run(if i + 1 < |p.w.g.nodes| then cs.nextBB + 4 else cs.nextBB + 6, 0, s1))
  {
    hide Reaches, Exec, Between, Swept, Begins, ScanBody;
    var s0 := s.(rt := s.rt.(iters := s.rt.iters[it := i + 1]));
    ExecOne(p.w, VecNext(ItReg(cs)), s, s0);
    s1 := RunTest(p, cs, cs.nextBB + 5, Nil.Do(VecNext(ItReg(cs))), cs.nextReg + 5, s, s0, it, i + 1);
    TickQuiet(p, cs, r, cs1, s, k, s1);
  }

  lemma RunBody(p: Prog, cs: Cg, s: State, it: nat, i: nat, code: nat) returns (s1: State)
    requires Has(p, cs.nextBB + 4, ScanBody(cs, cs.nextBB + 2, cs.nextBB + 5))
    requires RegHas(s, ItReg(cs), ItV(it)) && it < |s.rt.iters| && s.rt.iters[it] == i && i < |p.w.g.nodes|
             && RegHas(s, cs.nextReg, IntV(code))
    ensures var g := p.w.g;
            && s1 == Set(Set(s, cs.nextReg + 3, NodeV(g.nodes[i])), NodeReg(cs), NodeV(g.valid(g.nodes[i])))
            && Reaches(p, Run(cs.nextBB + 4, 0, s),
                       Run(if g.node(g.valid(g.nodes[i])).labelCode == code then cs.nextBB + 2 else cs.nextBB + 5,
                           0, s1))
  {
    hide Reaches, Exec;
    var g := p.w.g;
    var s0 := Set(s, cs.nextReg + 3, NodeV(g.nodes[i]));
    s1 := Set(s0, NodeReg(cs), NodeV(g.valid(g.nodes[i])));
    ExecTwo(p.w, NodeFromIt(cs.nextReg + 3, ItReg(cs)), ValidNode(NodeReg(cs), cs.nextReg + 3), s, s0, s1);
    RunBlock(p, cs.nextBB + 4, s);
  }

  // What the node at the iterator contributes.
  function NodeTuples(g: Graph, code: nat, p: nat): seq<Tuple> {
    if g.node(g.valid(p)).labelCode == code then [[NodeV(g.valid(p))]] else []
  }

  // The node is consumed if it has the label; control comes to the epilog or leaves.
  lemma OneNode(p: Prog, cs: Cg, r: Rest, cs1: Cg, s: State, k: Flow, it: nat, i: nat, code: nat) returns (s1: State)
    requires LoopSetup(p, cs, r, cs1) && Simulates(p, cs1, r) && At(p, cs, r, cs1, s, k, it, i, code)
             && i < |p.w.g.nodes|
    ensures var o := PushAll(p.w, r, NodeTuples(p.w.g, code, p.w.g.nodes[i]), k);
            && Swept(p, cs1, r, s, o, s1)
            && (o.exit == Back ==>
                  && Reaches(p, Run(cs.nextBB + 4, 0, s), Run(cs.nextBB + 5, 0, s1))
                  && At(p, cs, r, cs1, s1, o.k, it, i, code))
            && (o.exit != Back ==> Sweeps(p, cs1, r, s, Run(cs.nextBB + 4, 0, s), o, s1))
  {
    hide Reaches, Push, PushAll, Between, Swept, Sweeps, Simulates, ScanBody, IteratorTest;
    var n, g := cs.nextBB, p.w.g;
    var s0 := RunBody(p, cs, s, it, i, code);
    TickQuiet(p, cs, r, cs1, s, k, s0);
    if g.node(g.valid(g.nodes[i])).labelCode == code {
      s1 := Found(p, cs, r, cs1, s, k, s0, NodeV(g.valid(g.nodes[i])));
    } else {
      PushAllNone(p.w, r, k);
      s1 := s0;
    }
  }

  // A node with the label is consumed.
  lemma Found(p: Prog, cs: Cg, r: Rest, cs1: Cg, s: State, k: Flow, s0: State, v: Val) returns (s1: State)
    requires LoopSetup(p, cs, r, cs1) && Simulates(p, cs1, r) && Swept(p, cs1, r, s, Nothing(k), s0)
             && Between(p, cs1, r, s0, k)
    requires RegHas(s0, NodeReg(cs), v) && v.NodeV? && Reaches(p, Run(cs.nextBB + 4, 0, s), Run(cs.nextBB + 2, 0, s0))
    ensures var o := PushAll(p.w, r, [[v]], k);
            && Swept(p, cs1, r, s, o, s1) && RegsKept(s0, s1, cs1.nextReg) && s1.rt.iters == s0.rt.iters
            && (o.exit == Back ==>
                  Reaches(p, Run(cs.nextBB + 4, 0, s), Run(cs.nextBB + 5, 0, s1)) && Between(p, cs1, r, s1, o.k))
            && (o.exit != Back ==> Sweeps(p, cs1, r, s, Run(cs.nextBB + 4, 0, s), o, s1))
  {
    hide Reaches, Push, PushAll, Between, Swept, Sweeps, Simulates, ScanBody, IteratorTest;
    var n := cs.nextBB;
    s1 := Consume(p, cs1, r, s0, v, k);
    PushAllOne(p.w, r, [v], k);
    var o := Push(p.w, r, [v], k);
    SweptAfter(p, cs1, r, s, k, s0, o, s1);
    if o.exit == Back {
      Trans(p, Run(n + 4, 0, s), Run(n + 2, 0, s0), Run(n + 5, 0, s1));
    } else {
      SweepsAfter(p, cs1, r, s, Run(n + 4, 0, s), Nothing(k), s0, Run(n + 2, 0, s0), o, s1);
    }
  }

  lemma SweptAfter(p: Prog, cs: Cg, r: Rest, s: State, k: Flow, s0: State, o: Outcome, s1: State)
    requires Swept(p, cs, r, s, Nothing(k), s0) && Swept(p, cs, r, s0, o, s1)
    ensures Swept(p, cs, r, s, o, s1)
  {
    hide Swept;
    SweptSeq(p, cs, r, s, Nothing(k), s0, o, s1);
    assert [] + o.emit == o.emit;
  }

  /** The loop builder: every node is handed to the body exactly once, in order, whatever the body
      does, until the body leaves for good. */
  lemma {:induction false} Sweep(p: Prog, cs: Cg, r: Rest, cs1: Cg, s: State, k: Flow, it: nat, i: nat, code: nat)
    returns (s1: State)
    requires LoopSetup(p, cs, r, cs1) && Simulates(p, cs1, r) && At(p, cs, r, cs1, s, k, it, i, code)
             && i <= |p.w.g.nodes|
    ensures Sweeps(p, cs1, r, s, Run(if i < |p.w.g.nodes| then cs.nextBB + 4 else cs.nextBB + 6, 0, s),
                   PushAll(p.w, r, LabelTuples(p.w.g, code, p.w.g.nodes[i..]), k), s1)
    decreases |p.w.g.nodes| - i
  {
    hide Reaches, Push, PushAll, Between, Swept, Sweeps, Simulates, ScanBody, IteratorTest;
    var n, g := cs.nextBB, p.w.g;
    if i == |g.nodes| {
      SweepEnd(p, cs, r, cs1, s, k);
      PushAllNone(p.w, r, k);
      s1 := s;
    } else {
      var a, b := NodeTuples(g, code, g.nodes[i]), LabelTuples(g, code, g.nodes[i + 1..]);
      var o := PushAll(p.w, r, a, k);
      var s0 := OneNode(p, cs, r, cs1, s, k, it, i, code);
      assert g.nodes[i..][1..] == g.nodes[i + 1..];
      assert LabelTuples(g, code, g.nodes[i..]) == a + b;
      PushAllAppend(p.w, r, a, b, k);
      if o.exit == Back {
        var s2 := Advance(p, cs, r, cs1, s0, o.k, it, i, code);
        s1 := Sweep(p, cs, r, cs1, s2, o.k, it, i + 1, code);
        var from_ := Run(if i + 1 < |g.nodes| then n + 4 else n + 6, 0, s2);
        SweepsAfter(p, cs1, r, s0, Run(n + 5, 0, s0), Nothing(o.k), s2, from_, PushAll(p.w, r, b, o.k), s1);
        SweepsAfter(p, cs1, r, s, Run(n + 4, 0, s), o, s0, Run(n + 5, 0, s0), PushAll(p.w, r, b, o.k), s1);
      } else {
        s1 := s0;
      }
    }
  }

  lemma SweepEnd(p: Prog, cs: Cg, r: Rest, cs1: Cg, s: State, k: Flow)
    requires LoopSetup(p, cs, r, cs1) && Between(p, cs1, r, s, k)
    ensures Sweeps(p, cs1, r, s, Run(cs.nextBB + 6, 0, s), Nothing(k), s)
  {
    hide Reaches, ScanBody, IteratorTest;
    RunGoto(p, cs.nextBB + 6, cs.nextBB + 1, s);
    SweptQuiet(p, cs1, r, s, k, s);
  }

  // ----- the entry block -----

  // What a plan finds when its access path starts.
  ghost predicate Opening(p: Prog, cs: Cg, r: Rest, s: State, k: Flow) {
    && s.rt.tp == [] && s.rt.mat == [] && CacheOk(p.w.g, s.rt)
    && k.count == 0 && s.rt.fevList == k.left && JoinReady(cs, r, s.rt, k.input)
  }

  // The state after init_function has set the cells of this access path.
  function Inited(cs: Cg, s: State): State {
    s.(cells := s.cells[CellOf(cs, ResCounter) := IntV(0)][CellOf(cs, RhsAlloca) := IntV(UNKNOWN_ID)]
                       [CellOf(cs, MaxCnt) := IntV(MAX_PITEM_CNT)])
  }

  lemma InitExec(w: World, cs: Cg, s: State)
    ensures Exec(w, InitCode(cs), s) == Ok(Inited(cs, s))
  {
    hide Exec;
    var s1 := s.(cells := s.cells[CellOf(cs, ResCounter) := IntV(0)]);
    var s2 := s1.(cells := s1.cells[CellOf(cs, RhsAlloca) := IntV(UNKNOWN_ID)]);
    var a, b := Store(K(0), CellOf(cs, ResCounter)), Store(K(UNKNOWN_ID), CellOf(cs, RhsAlloca));
    ExecTwo(w, a, b, s, s1, s2);
    ExecThen(w, Nil.Do(a).Do(b), Store(K(MAX_PITEM_CNT), CellOf(cs, MaxCnt)), s, s2, Inited(cs, s));
  }

  lemma InitedBetween(p: Prog, cs: Cg, r: Rest, cs1: Cg, s: State, s1: State, k: Flow)
    requires Opening(p, cs1, r, s, k) && cs1.pipe == cs.pipe
    requires s1.cells == Inited(cs, s).cells && s1.rt == s.rt.(iters := s1.rt.iters)
    ensures Between(p, cs1, r, s1, k) && Swept(p, cs1, r, s, Nothing(k), s1)
  {
    SweptQuiet(p, cs1, r, s, k, s1);
  }

  // ----- a scan over the nodes with a label -----

  function EntryBlock(b: Cg): Block {
    Block(InitCode(b).Do(LookupLabel(b.nextReg, b.opId)).Do(VecBegin(ItReg(b))), Some(Br(b.nextBB + 3)))
  }

  function LookupBlock(b: Cg): Block {
    Block(InitCode(b).Do(IndexGet(NodeReg(b), b.opId)), Some(CondBr(IsNull(NodeReg(b)), b.nextBB + 1, b.nextBB + 2)))
  }

  ghost predicate LabelSetup(p: Prog, plan: Plan, cs: Cg) {
    var b := Begun(plan, cs);
    && plan.scan.ScanLabel? && LoopSetup(p, b, plan.rest, AfterScan(plan, cs))
    && Has(p, cs.nextBB, EntryBlock(b))
  }

  lemma LabelEntry(p: Prog, plan: Plan, cs: Cg, s: State, k: Flow) returns (s1: State)
    requires LabelSetup(p, plan, cs) && Opening(p, AfterScan(plan, cs), plan.rest, s, k)
    requires ArgAt(p.w, cs.opId) == LabelArg(plan.scan.lbl)
    ensures At(p, Begun(plan, cs), plan.rest, AfterScan(plan, cs), s1, k, |s.rt.iters|, 0, p.w.g.code(plan.scan.lbl))
    ensures Swept(p, AfterScan(plan, cs), plan.rest, s, Nothing(k), s1)
    ensures Reaches(p, Run(cs.nextBB, 0, s), Run(cs.nextBB + 3, 0, s1))
  {
    hide Reaches, Exec, LoopSetup, Opening, Between, Swept, InitCode, VisitScan;
    var b, code := Begun(plan, cs), p.w.g.code(plan.scan.lbl);
    var s2 := Inited(b, s);
    var s3 := Set(s2, cs.nextReg, IntV(code));
    s1 := Set(s3, ItReg(cs), ItV(|s.rt.iters|)).(rt := s3.rt.(iters := s3.rt.iters + [0]));
    InitExec(p.w, b, s);
    ExecThen(p.w, InitCode(b), LookupLabel(cs.nextReg, cs.opId), s, s2, s3);
    ExecThen(p.w, InitCode(b).Do(LookupLabel(cs.nextReg, cs.opId)), VecBegin(ItReg(cs)), s, s3, s1);
    RunBlock(p, cs.nextBB, s);
    ScanPipe(plan, cs);
    InitedBetween(p, b, plan.rest, AfterScan(plan, cs), s, s1, k);
  }

  lemma ScanPipe(plan: Plan, cs: Cg)
    ensures AfterScan(plan, cs).pipe == Begun(plan, cs).pipe
  {
  }

  lemma LabelScan(p: Prog, plan: Plan, cs: Cg, s: State, k: Flow) returns (s1: State)
    requires LabelSetup(p, plan, cs) && Simulates(p, AfterScan(plan, cs), plan.rest)
    requires Opening(p, AfterScan(plan, cs), plan.rest, s, k) && ArgAt(p.w, cs.opId) == LabelArg(plan.scan.lbl)
    ensures Sweeps(p, AfterScan(plan, cs), plan.rest, s, Run(cs.nextBB, 0, s),
                   PushAll(p.w, plan.rest, ScanTuples(p.w, plan.scan), k), s1)
  {
    hide Reaches, Push, PushAll, Opening, Between, Swept, Sweeps, Simulates, InitCode, VisitScan, ScanBody,
         AfterScan, Begins;
    var b, cs1, r, n, g, it := Begun(plan, cs), AfterScan(plan, cs), plan.rest, cs.nextBB, p.w.g, |s.rt.iters|;
    var code := g.code(plan.scan.lbl);
    var s2 := LabelEntry(p, plan, cs, s, k);
    var s3 := RunTest(p, b, n + 3, Nil, cs.nextReg + 4, s2, s2, it, 0);
    TickQuiet(p, b, r, cs1, s2, k, s3);
    s1 := Sweep(p, b, r, cs1, s3, k, it, 0, code);
    assert g.nodes[0..] == g.nodes;
    var o, mid := PushAll(p.w, r, LabelTuples(g, code, g.nodes), k), Run(if 0 < |g.nodes| then n + 4 else n + 6, 0, s3);
    SweepsAfter(p, cs1, r, s2, Run(n + 3, 0, s2), Nothing(k), s3, mid, o, s1);
    SweepsAfter(p, cs1, r, s, Run(n, 0, s), Nothing(k), s2, Run(n + 3, 0, s2), o, s1);
  }

  // ----- a lookup through an index -----

  ghost predicate IndexSetup(p: Prog, plan: Plan, cs: Cg) {
    var b := Begun(plan, cs);
    && plan.scan.ScanIndex? && Begins(b, plan.rest, AfterScan(plan, cs))
    && AfterScan(plan, cs).mainReturn == cs.nextBB + 1
    && Has(p, cs.nextBB, LookupBlock(b))
  }

  predicate IndexArgs(w: World, at: nat, scan: Scan) {
    && scan.ScanIndex? && ArgAt(w, at) == LabelArg(scan.lbl) && ArgAt(w, at + 1) == LabelArg(scan.prop)
    && ArgAt(w, at + 2) == ValueArg(scan.value)
  }

  lemma IndexEntry(p: Prog, plan: Plan, cs: Cg, s: State, k: Flow) returns (s1: State)
    requires IndexSetup(p, plan, cs) && Opening(p, AfterScan(plan, cs), plan.rest, s, k)
             && IndexArgs(p.w, cs.opId, plan.scan)
    ensures var found := p.w.g.index(plan.scan.lbl, plan.scan.prop, plan.scan.value);
            && RegHas(s1, NodeReg(cs), Pointer(found))
            && Reaches(p, Run(cs.nextBB, 0, s), Run(if found == None then cs.nextBB + 1 else cs.nextBB + 2, 0, s1))
    ensures Between(p, AfterScan(plan, cs), plan.rest, s1, k)
            && Swept(p, AfterScan(plan, cs), plan.rest, s, Nothing(k), s1)
  {
    hide Reaches, Exec, Begins, Opening, Between, Swept, InitCode, VisitScan;
    var b, found := Begun(plan, cs), p.w.g.index(plan.scan.lbl, plan.scan.prop, plan.scan.value);
    var s2 := Inited(b, s);
    s1 := Set(s2, NodeReg(cs), Pointer(found));
    InitExec(p.w, b, s);
    ExecThen(p.w, InitCode(b), IndexGet(NodeReg(cs), cs.opId), s, s2, s1);
    RunBlock(p, cs.nextBB, s);
    ScanPipe(plan, cs);
    InitedBetween(p, b, plan.rest, AfterScan(plan, cs), s, s1, k);
  }

  lemma IndexScan(p: Prog, plan: Plan, cs: Cg, s: State, k: Flow) returns (s1: State)
    requires IndexSetup(p, plan, cs) && Simulates(p, AfterScan(plan, cs), plan.rest)
    requires Opening(p, AfterScan(plan, cs), plan.rest, s, k) && IndexArgs(p.w, cs.opId, plan.scan)
    ensures Sweeps(p, AfterScan(plan, cs), plan.rest, s, Run(cs.nextBB, 0, s),
                   PushAll(p.w, plan.rest, ScanTuples(p.w, plan.scan), k), s1)
  {
    hide Reaches, Push, PushAll, Opening, Between, Swept, Simulates, InitCode, VisitScan, AfterScan;
    var cs1, r, n := AfterScan(plan, cs), plan.rest, cs.nextBB;
    var s2 := IndexEntry(p, plan, cs, s, k);
    match p.w.g.index(plan.scan.lbl, plan.scan.prop, plan.scan.value)
    case None =>
      PushAllNone(p.w, r, k);
      s1 := s2;
    case Some(v) =>
      s1 := Consume(p, cs1, r, s2, NodeV(v), k);
      PushAllOne(p.w, r, [NodeV(v)], k);
      SweepsAfter(p, cs1, r, s, Run(n, 0, s), Nothing(k), s2, Run(n + 2, 0, s2), Push(p.w, r, [NodeV(v)], k), s1);
  }

  // ----- any access path -----

  ghost predicate PathReady(p: Prog, plan: Plan, cs: Cg) {
    && GraphOk(p.w.g) && |p.w.args| <= MAX_ARGS && cs.dict == p.w.g.code && Bounded(cs)
    && Extends(CompilePlan(plan, cs).blocks, p.blocks)
    && ArgsFrom(p.w.args, cs.opId, PlanArgs(plan))
    && (HasProject(plan.rest) ==> cs.projectString == [])
    && (!EndsInCollect(plan.rest) ==> cs.jids != [] && cs.jids[0] < cs.nextJid)
  }

  // The scan's own blocks are in the program.
  lemma PathEmitted(p: Prog, plan: Plan, cs: Cg)
    requires Bounded(cs) && Extends(CompilePlan(plan, cs).blocks, p.blocks)
    ensures Extends(AfterScan(plan, cs).blocks, p.blocks) && Extends(OwnBlocks(plan, cs), p.blocks)
    ensures IsOpen(AfterScan(plan, cs)) && Bounded(AfterScan(plan, cs))
            && Extends(CompileRest(plan.rest, AfterScan(plan, cs)).blocks, p.blocks)
  {
    hide CompileRest, ScanBlocks, IndexBlocks;
    ScanKeeps(plan, cs);
    RestKeeps(plan.rest, AfterScan(plan, cs));
    ExtendsTrans(OwnBlocks(plan, cs), AfterScan(plan, cs).blocks, p.blocks);
  }

  // A closed block among those of a visit.
  predicate Complete(own: Blocks, b: BlockId, blk: Block) {
    Holds(own, b, blk) && blk.term.Some?
  }

  lemma EmittedBlock(own: Blocks, p: Prog, b: BlockId, blk: Block)
    requires Extends(own, p.blocks) && Complete(own, b, blk)
    ensures Has(p, b, blk)
  {
  }

  ghost predicate LoopTable(own: Blocks, b: Cg) {
    var n, r := b.nextBB, b.nextReg;
    && Complete(own, n, EntryBlock(b)) && Complete(own, n + 3, IteratorTest(Nil, r + 4, ItReg(b), n + 4, n + 6))
    && Complete(own, n + 4, ScanBody(b, n + 2, n + 5))
    && Complete(own, n + 5, IteratorTest(Nil.Do(VecNext(ItReg(b))), r + 5, ItReg(b), n + 4, n + 6))
    && Complete(own, n + 6, Goto(n + 1))
  }

  lemma ExitCloses(cs: Cg)
    ensures ScanExit(cs).term.Some?
  {
  }

  lemma TableOfScan(b: Cg, exit: Block)
    requires exit.term.Some?
    ensures LoopTable(ScanBlocks(b, exit), b) && Complete(ScanBlocks(b, exit), b.nextBB + 1, exit)
            && Holds(ScanBlocks(b, exit), b.nextBB + 2, EMPTY)
  {
    hide InitCode;
  }

  lemma TableOfIndex(b: Cg, exit: Block)
    requires exit.term.Some?
    ensures Complete(IndexBlocks(b, exit), b.nextBB, LookupBlock(b))
    ensures Complete(IndexBlocks(b, exit), b.nextBB + 1, exit) && Holds(IndexBlocks(b, exit), b.nextBB + 2, EMPTY)
  {
    hide InitCode;
  }

  // What the visit leaves.
  lemma MakeBegins(plan: Plan, cs: Cg)
    requires !EndsInCollect(plan.rest) ==> cs.jids != [] && cs.jids[0] < cs.nextJid
    ensures Begins(Begun(plan, cs), plan.rest, AfterScan(plan, cs))
    ensures AfterScan(plan, cs).mainReturn == if plan.scan.ScanLabel? then cs.nextBB + 5 else cs.nextBB + 1
  {
    hide ScanBlocks, IndexBlocks, LoopTable, LookupBlock, ScanExit, PipelineKeys, EndsInCollect;
    ExitCloses(cs);
    TableOfScan(Begun(plan, cs), ScanExit(cs));
    TableOfIndex(Begun(plan, cs), ScanExit(cs));
  }

  // The end of the access path.
  lemma ExitEmitted(p: Prog, plan: Plan, cs: Cg)
    requires Bounded(cs) && Extends(CompilePlan(plan, cs).blocks, p.blocks)
    ensures Has(p, cs.nextBB + 1, ScanExit(cs)) && AfterScan(plan, cs).scanEnd == cs.nextBB + 1
  {
    hide CompilePlan, CompileRest, Extends, ScanBlocks, IndexBlocks, ScanExit, LoopTable, LookupBlock, PipelineKeys;
    PathEmitted(p, plan, cs);
    ExitCloses(cs);
    TableOfScan(Begun(plan, cs), ScanExit(cs));
    TableOfIndex(Begun(plan, cs), ScanExit(cs));
    EmittedBlock(OwnBlocks(plan, cs), p, cs.nextBB + 1, ScanExit(cs));
  }

  // The access path finds its arguments in its slots.
  lemma PathArgs(w: World, plan: Plan, at: nat)
    requires |w.args| <= MAX_ARGS && ArgsFrom(w.args, at, PlanArgs(plan))
    ensures plan.scan.ScanLabel? ==> ArgAt(w, at) == LabelArg(plan.scan.lbl)
    ensures plan.scan.ScanIndex? ==> IndexArgs(w, at, plan.scan)
  {
    hide RestArgs;
    var own := ScanArgs(plan.scan);
    ArgsSplit(w.args, at, own, RestArgs(plan.rest));
    assert w.args[at] == own[0];
    assert plan.scan.ScanIndex? ==> w.args[at + 1] == own[1] && w.args[at + 2] == own[2];
  }

  lemma MakeLabelSetup(p: Prog, plan: Plan, cs: Cg)
    requires PathReady(p, plan, cs) && plan.scan.ScanLabel?
    ensures LabelSetup(p, plan, cs) && ArgAt(p.w, cs.opId) == LabelArg(plan.scan.lbl)
  {
    hide CompilePlan, GraphOk, ScanExit, ScanBody, IteratorTest, InitCode, PlanArgs, ArgAt, ArgsFrom, AfterScan, Begins,
         Extends, ScanBlocks, EntryBlock, CompileRest;
    PathEmitted(p, plan, cs);
    MakeBegins(plan, cs);
    PathArgs(p.w, plan, cs.opId);
    ExitCloses(cs);
    TableOfScan(Begun(plan, cs), ScanExit(cs));
    LoopEmitted(OwnBlocks(plan, cs), p, Begun(plan, cs));
  }

  lemma LoopEmitted(own: Blocks, p: Prog, b: Cg)
    requires Extends(own, p.blocks) && LoopTable(own, b)
    ensures var n, r := b.nextBB, b.nextReg;
            && Has(p, n, EntryBlock(b)) && Has(p, n + 3, IteratorTest(Nil, r + 4, ItReg(b), n + 4, n + 6))
            && Has(p, n + 4, ScanBody(b, n + 2, n + 5))
            && Has(p, n + 5, IteratorTest(Nil.Do(VecNext(ItReg(b))), r + 5, ItReg(b), n + 4, n + 6))
            && Has(p, n + 6, Goto(n + 1))
  {
    hide Extends, ScanBody, IteratorTest, Goto, EntryBlock;
    var n, r := b.nextBB, b.nextReg;
    EmittedBlock(own, p, n, EntryBlock(b));
    EmittedBlock(own, p, n + 3, IteratorTest(Nil, r + 4, ItReg(b), n + 4, n + 6));
    EmittedBlock(own, p, n + 4, ScanBody(b, n + 2, n + 5));
    EmittedBlock(own, p, n + 5, IteratorTest(Nil.Do(VecNext(ItReg(b))), r + 5, ItReg(b), n + 4, n + 6));
    EmittedBlock(own, p, n + 6, Goto(n + 1));
  }

  lemma MakeIndexSetup(p: Prog, plan: Plan, cs: Cg)
    requires PathReady(p, plan, cs) && plan.scan.ScanIndex?
    ensures IndexSetup(p, plan, cs) && IndexArgs(p.w, cs.opId, plan.scan)
  {
    hide CompilePlan, GraphOk, Typed, ScanExit, InitCode, PlanArgs, ArgAt, ArgsFrom, AfterScan, Begins, Extends,
         IndexBlocks;
    PathEmitted(p, plan, cs);
    MakeBegins(plan, cs);
    PathArgs(p.w, plan, cs.opId);
    ExitCloses(cs);
    TableOfIndex(Begun(plan, cs), ScanExit(cs));
    EmittedBlock(OwnBlocks(plan, cs), p, cs.nextBB, LookupBlock(Begun(plan, cs)));
  }

  /** An access path pushes its tuples through the pipeline, in order, and ends at its end block. */
  lemma AccessPath(p: Prog, plan: Plan, cs: Cg, s: State, k: Flow) returns (s1: State)
    requires PathReady(p, plan, cs) && Simulates(p, AfterScan(plan, cs), plan.rest)
             && Opening(p, AfterScan(plan, cs), plan.rest, s, k)
    ensures Sweeps(p, AfterScan(plan, cs), plan.rest, s, Run(cs.nextBB, 0, s),
                   PushAll(p.w, plan.rest, ScanTuples(p.w, plan.scan), k), s1)
  {
    hide PathReady, Simulates, Opening, Sweeps, AfterScan, PushAll, ScanTuples, LabelSetup, IndexSetup, ArgAt;
    match plan.scan
    case ScanLabel(_) => MakeLabelSetup(p, plan, cs); s1 := LabelScan(p, plan, cs, s, k);
    case ScanIndex(_, _, _) => MakeIndexSetup(p, plan, cs); s1 := IndexScan(p, plan, cs, s, k);
  }

  lemma FinishExec(w: World, s: State)
    ensures Exec1(w, Finish, s) == Ok(s.(rt := s.rt.(rows := w.finish(s.rt.rows))))
  {
  }

  // From its end an access path goes on to the next, the last one to the finish function.
  lemma RunExit(p: Prog, plan: Plan, cs: Cg, s: State) returns (s1: State)
    requires Bounded(cs) && Extends(CompilePlan(plan, cs).blocks, p.blocks)
    ensures s1 == if cs.entry.Some? then s else s.(rt := s.rt.(rows := p.w.finish(s.rt.rows)))
    ensures Reaches(p, Run(AfterScan(plan, cs).scanEnd, 0, s),
                    if cs.entry.Some? then Run(cs.entry.value, 0, s1) else Done(s1))
  {
    hide Reaches, Exec, Exec1, CompilePlan, AfterScan, Extends;
    ExitEmitted(p, plan, cs);
    match cs.entry
    case Some(e) =>
      RunGoto(p, cs.nextBB + 1, e, s);
      s1 := s;
    case None =>
      s1 := s.(rt := s.rt.(rows := p.w.finish(s.rt.rows)));
      FinishExec(p.w, s);
      ExecOne(p.w, Finish, s, s1);
      RunBlock(p, cs.nextBB + 1, s);
  }
}
