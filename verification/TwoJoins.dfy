/** Two cross joins in a row. An End takes the id in front of the queue, so each join reads the rows of the
    other's input; and both count in the same cells, so the outer loop ends with the first of its rows. */
module TwoJoins {
  import opened Storage
  import opened Ir
  import opened Runtime
  import opened Machine
  import opened Plan
  import opened Algebra
  import opened TupleAtATime
  import opened Codegen
  import opened Shape
  import opened Simulation
  import opened Kinds
  import opened Runs
  import opened JoinProof
  import Invariance
  import SinkProof
  import opened ScanProof
  import ArgSlots
  import JoinQueue
  import opened Correctness

  function Twice(q1: Plan, q2: Plan): Rest {
    Join(Cross, Pairs(q2), q1)
  }

  // ----- one tuple -----

  lemma {:induction false} CrossAssoc(t: Tuple, a: Tuple, rows: seq<Tuple>)
    ensures CrossTuples(t + a, rows) == CrossTuples(t, CrossTuples(a, rows))
    decreases |rows|
  {
    if rows != [] {
      CrossAssoc(t, a, rows[1..]);
      assert t + a + rows[0] == t + (a + rows[0]);
      assert CrossTuples(a, rows)[1..] == CrossTuples(a, rows[1..]);
    }
  }

  lemma PushPairs(w: World, q: Plan, t: Tuple, k: Flow)
    ensures Push(w, Pairs(q), t, k) == Outcome(CrossTuples(t, k.input), k, Back)
  {
    EmitAll(w, Collect, CrossTuples(t, k.input), k);
  }

  lemma PushTwice(w: World, q1: Plan, q2: Plan, t: Tuple, k: Flow)
    ensures Push(w, Twice(q1, q2), t, k) == Outcome(CrossTuples(t, k.input), k, Back)
  {
    EmitAll(w, Collect, CrossTuples(t, k.input), k);
  }

  // The visitor before the outer join.
  ghost predicate Before(p: Prog, cs: Cg, q1: Plan, q2: Plan) {
    && Emitted(p, cs, Twice(q1, q2)) && Ready(p, After(Twice(q1, q2), cs), Pairs(q2))
    && Simulates(p, After(Pairs(q2), After(Twice(q1, q2), cs)), Collect)
  }

  // The inner join runs to its end, from the outer one's first row.
  lemma Inner(p: Prog, cs: Cg, q1: Plan, q2: Plan, s: State, t: Tuple, k: Flow, row: Tuple) returns (s1: State)
    requires var r := Twice(q1, q2);
             && Before(p, cs, q1, q2) && CrossParts(p, cs, r, After(r, cs)) && InLoop(p, cs, r, s, t, k, 1)
             && Matches(After(r, cs).regs, t + row, s)
    ensures var r, more := Twice(q1, q2), RhsAt(s.rt, cs.nextJid + 1);
            && Ran(p, cs, r, s, Outcome(CrossTuples(t + row, more), k, Back), s1)
            && Reaches(p, Run(cs.nextBB + 7, 0, s), Run(cs.nextBB + 9, 0, s1))
            && Holding(p, cs, r, s1, t, k) && IndexAtEnd(cs, s1, |more|)
  {
    hide Reaches, Ready, Simulates, CompileRest, Matches, LocOk, CacheOk, RhsTypes, JoinRegs, JoinEntry, WhileHead,
         BodyBlock, CrossConcat, Has, HasKinds;
    var r, more := Twice(q1, q2), RhsAt(s.rt, cs.nextJid + 1);
    var cs1, k2 := After(r, cs), k.(input := more);
    PushPairs(p.w, q2, t + row, k2);
    InnerPre(p, cs, q1, q2, s, t, k, row);
    s1 := JoinProof.Enter(p, cs1, Pairs(q2), s, t + row, k2);
    InnerBack(p, cs, q1, q2, s, t, k, row, s1);
  }

  lemma InnerPre(p: Prog, cs: Cg, q1: Plan, q2: Plan, s: State, t: Tuple, k: Flow, row: Tuple)
    requires var r := Twice(q1, q2);
             && CrossParts(p, cs, r, After(r, cs)) && InLoop(p, cs, r, s, t, k, 1)
             && Matches(After(r, cs).regs, t + row, s)
    ensures Pre(p, After(Twice(q1, q2), cs), Pairs(q2), s, t + row, k.(input := RhsAt(s.rt, cs.nextJid + 1)))
    ensures Rows(After(Twice(q1, q2), cs), s) == RhsAt(s.rt, cs.nextJid + 1)
  {
    hide Matches, LayoutOk, JoinRegs, JoinEntry, BodyBlock, HasKinds, RhsTypes, JoinBlocks, CacheOk;
  }

  lemma InnerBack(p: Prog, cs: Cg, q1: Plan, q2: Plan, s: State, t: Tuple, k: Flow, row: Tuple, s1: State)
    requires var r, more := Twice(q1, q2), RhsAt(s.rt, cs.nextJid + 1);
             var cs1 := After(r, cs);
             && CrossParts(p, cs, r, cs1) && InLoop(p, cs, r, s, t, k, 1)
             && Post(p, cs1, Pairs(q2), s, Outcome(CrossTuples(t + row, more), k.(input := more), Back), s1)
             && IndexAtEnd(cs1, s1, |more|)
    ensures var r, more := Twice(q1, q2), RhsAt(s.rt, cs.nextJid + 1);
            && Ran(p, cs, r, s, Outcome(CrossTuples(t + row, more), k, Back), s1)
            && Reaches(p, Run(cs.nextBB + 7, 0, s), Run(cs.nextBB + 9, 0, s1))
            && Holding(p, cs, r, s1, t, k) && IndexAtEnd(cs, s1, |more|)
  {
    hide Reaches, Matches, LocOk, CacheOk, RhsTypes, JoinRegs, JoinEntry, WhileHead, BodyBlock, CrossConcat, Has,
         HasKinds, After, RowsOf;
    var r, more := Twice(q1, q2), RhsAt(s.rt, cs.nextJid + 1);
    var o := Outcome(CrossTuples(t + row, more), k.(input := more), Back);
    RanWiden(p, cs, r, After(r, cs), s, o, s1);
    MatchesKept(cs, r, s, s1, t);
    JoinKept(p, cs, r, s, o, s1, k.input);
  }

  // Which ends the outer loop as well.
  lemma OuterEnd(p: Prog, cs: Cg, r: Rest, cs1: Cg, s: State, t: Tuple, k: Flow, n: nat)
    requires CrossParts(p, cs, r, cs1) && Holding(p, cs, r, s, t, k) && IndexAtEnd(cs, s, n)
    ensures Result(p, cs, r, s, Run(cs.nextBB + 9, 0, s), Nothing(k), s)
  {
    hide Reaches, JoinEntry, BodyBlock, Holding, Visited;
    var b := cs.nextBB;
    RunWhile(p, b + 9, CellOf(cs, CurIdx), CellOf(cs, MaxIdx), b + 10, b + 8, s);
    Drop(p, cs, r, s, t, k, b + 8);
    GoesFrom(p, cs, Run(b + 9, 0, s), Run(b + 8, 0, s), Back, s);
  }

  lemma Outer(p: Prog, cs: Cg, q1: Plan, q2: Plan, s: State, t: Tuple, k: Flow) returns (s1: State)
    requires Before(p, cs, q1, q2) && Pre(p, cs, Twice(q1, q2), s, t, k)
    ensures Post(p, cs, Twice(q1, q2), s, Push(p.w, Twice(q1, q2), t, k), s1)
  {
    hide Reaches, After, CompileRest, Simulates, Ran, Ready, Pre, PushAll, Push, CrossParts, Holding, Result, Matches;
    var r, n := Twice(q1, q2), cs.nextBB;
    var cs1, o := After(r, cs), Push(p.w, r, t, k);
    MakeCross(p, cs, r);
    PushTwice(p.w, q1, q2, t, k);
    BothInputs(p, cs, q1, q2, s, t, k);
    OuterStarts(p, cs, r, cs1);
    var s0 := JoinProof.Start(p, cs, r, cs1, s, t, k);
    EnteredRows(cs, s);
    var rows, more := Rows(cs, s), RhsAt(s.rt, cs.nextJid + 1);
    if rows == [] {
      LoopEnd(p, cs, r, cs1, s0, t, k);
      s1 := s0;
      assert o == Nothing(k);
    } else {
      var s2 := JoinProof.Fetch(p, cs, r, cs1, s0, t, k, 0);
      var s3 := Merge(p, cs, r, cs1, s2, t, k, 0);
      s1 := Inner(p, cs, q1, q2, s3, t, k, rows[0]);
      OuterEnd(p, cs, r, cs1, s1, t, k, |more|);
      CrossAssoc(t, rows[0], more);
      assert Both(o, Nothing(k)) == o by { assert o.emit + [] == o.emit; }
      ResultAfter(p, cs, r, s3, Run(n + 7, 0, s3), o, s1, Run(n + 9, 0, s1), Nothing(k), s1);
      ResultAfter(p, cs, r, s2, Run(n + 3, 0, s2), Nothing(k), s3, Run(n + 7, 0, s3), o, s1);
      ResultAfter(p, cs, r, s0, Run(n + 9, 0, s0), Nothing(k), s2, Run(n + 3, 0, s2), o, s1);
    }
    ResultAfter(p, cs, r, s, Entering(cs, s), Nothing(k), s0, Run(n + 9, 0, s0), o, s1);
  }

  lemma OuterStarts(p: Prog, cs: Cg, r: Rest, cs1: Cg)
    requires CrossParts(p, cs, r, cs1)
    ensures JoinSetup(p, cs, r, cs1) && r.kind == Cross
  {
  }

  lemma BothInputs(p: Prog, cs: Cg, q1: Plan, q2: Plan, s: State, t: Tuple, k: Flow)
    requires Pre(p, cs, Twice(q1, q2), s, t, k)
    ensures k.input == FirstWith(Rows(cs, s), RhsAt(s.rt, cs.nextJid + 1))
    ensures RhsAt(Entered(cs, s).rt, cs.nextJid + 1) == RhsAt(s.rt, cs.nextJid + 1)
  {
    hide Matches, Calm;
  }

  /** The blocks of two cross joins in a row pair a tuple with the first row of the outer one's list and each of
      the inner one's. */
  lemma TwiceSimulates(p: Prog, cs: Cg, q1: Plan, q2: Plan)
    requires Before(p, cs, q1, q2)
    ensures Simulates(p, cs, Twice(q1, q2))
  {
    hide Before, Reaches, Result, Push, Pre;
    var r := Twice(q1, q2);
    forall s, t, k | Pre(p, cs, r, s, t, k)
      ensures exists s1 :: Post(p, cs, r, s, Push(p.w, r, t, k), s1)
    {
      var s1 := Outer(p, cs, q1, q2, s, t, k);
    }
  }

  // ----- at compile time -----

  // A query of a scan and two cross joins in a row, whose inputs have no joins and hold rows of the same kinds.
  ghost predicate Joinable(w: World, scan: Scan, q1: Plan, q2: Plan) {
    && GraphOk(w.g) && |w.args| <= MAX_ARGS && ArgsFrom(w.args, 1, PlanArgs(Plan(scan, Twice(q1, q2))))
    && RhsOk(q1) && RhsOk(q2) && !HasJoin(q1.rest) && !HasJoin(q2.rest) && RhsTypes(q1) == RhsTypes(q2)
  }

  // The visitor at the outer join, at the inner one, behind both, and at each input: the inner join's comes first.
  datatype Stops = Stops(outer: Cg, inner: Cg, second: Cg, first: Cg)

  function StopsOf(dict: string -> nat, scan: Scan, q1: Plan, q2: Plan): Stops {
    var outer := AfterScan(Plan(scan, Twice(q1, q2)), Codegen.Start(dict));
    var inner := After(Twice(q1, q2), outer);
    var second := CompileRest(Collect, After(Pairs(q2), inner));
    Stops(outer, inner, second, CompilePlan(q2, second))
  }

  // What is known of the visitor when an input is compiled.
  ghost predicate Standing(w: World, q: Plan, cs: Cg, jids: seq<nat>, entry: BlockId) {
    && Bounded(cs) && cs.dict == w.g.code && cs.jids == jids && cs.nextJid == 2 && cs.entry == Some(entry)
    && ArgsFrom(w.args, cs.opId, PlanArgs(q))
  }

  lemma OuterFacts(w: World, scan: Scan, q1: Plan, q2: Plan)
    requires Joinable(w, scan, q1, q2)
    ensures var c := StopsOf(w.g.code, scan, q1, q2);
            && Bounded(c.outer) && IsOpen(c.outer) && c.outer.jids == [] && c.outer.nextJid == 0
            && c.outer.entry == Some(Codegen.Start(w.g.code).nextBB) && c.outer.dict == w.g.code
            && ArgsFrom(w.args, c.outer.opId, RestArgs(Twice(q1, q2)))
            && TypesOf(c.outer.regs) == [0] && LayoutOk(c.outer, Twice(q1, q2))
  {
    hide CompileRest, Extends, GraphOk, Typed, ArgsFrom, RestArgs, RhsTypes, LayoutOk, VisitScan, ScanArgs;
    var plan, cs := Plan(scan, Twice(q1, q2)), Codegen.Start(w.g.code);
    ScanKeeps(plan, cs);
    ScanLeaves(plan, cs);
    FirstLayout(plan, cs);
    ArgsSplit(w.args, 1, ScanArgs(scan), RestArgs(Twice(q1, q2)));
  }

  lemma InnerFacts(w: World, scan: Scan, q1: Plan, q2: Plan)
    requires Joinable(w, scan, q1, q2)
    ensures var c := StopsOf(w.g.code, scan, q1, q2);
            && Bounded(c.inner) && IsOpen(c.inner) && c.inner.jids == [0] && c.inner.nextJid == 1
            && c.inner.entry == c.outer.entry && c.inner.dict == w.g.code && c.inner.opId == c.outer.opId
            && ArgsFrom(w.args, c.inner.opId, RestArgs(Pairs(q2)))
            && ArgsFrom(w.args, c.inner.opId + TotalRest(Pairs(q2)), PlanArgs(q1))
  {
    hide CompileRest, Extends, GraphOk, Typed, ArgsFrom, RestArgs, RhsTypes, LayoutOk, AfterScan, PlanArgs, After,
         Bounded, IsOpen, TotalRest;
    OuterFacts(w, scan, q1, q2);
    InnerOf(w, AfterScan(Plan(scan, Twice(q1, q2)), Codegen.Start(w.g.code)), q1, q2);
  }

  lemma InnerOf(w: World, cs: Cg, q1: Plan, q2: Plan)
    requires Bounded(cs) && IsOpen(cs) && ArgsFrom(w.args, cs.opId, RestArgs(Twice(q1, q2)))
    ensures var cs1 := After(Twice(q1, q2), cs);
            && Bounded(cs1) && IsOpen(cs1) && cs1.jids == cs.jids + [cs.nextJid] && cs1.nextJid == cs.nextJid + 1
            && cs1.entry == cs.entry && cs1.dict == cs.dict && cs1.opId == cs.opId
            && ArgsFrom(w.args, cs1.opId, RestArgs(Pairs(q2)))
            && ArgsFrom(w.args, cs1.opId + TotalRest(Pairs(q2)), PlanArgs(q1))
  {
    hide CompileRest, ArgsFrom, RestArgs, PlanArgs, After, Bounded, IsOpen, Extends;
    VisitKeeps(Twice(q1, q2), cs);
    BothArgs(q1, q2);
    ArgsSplit(w.args, cs.opId, RestArgs(Pairs(q2)), PlanArgs(q1));
    RestArgsTotal(Pairs(q2));
  }

  lemma BothArgs(q1: Plan, q2: Plan)
    ensures RestArgs(Twice(q1, q2)) == RestArgs(Pairs(q2)) + PlanArgs(q1)
  {
  }

  lemma InputFacts(w: World, scan: Scan, q1: Plan, q2: Plan)
    requires Joinable(w, scan, q1, q2)
    ensures var c, n := StopsOf(w.g.code, scan, q1, q2), Codegen.Start(w.g.code).nextBB;
            Standing(w, q2, c.second, [0, 1], n) && Standing(w, q1, c.first, [1], c.second.nextBB)
  {
    hide CompileRest, Extends, GraphOk, Typed, ArgsFrom, RestArgs, RhsTypes, VisitScan, PlanArgs, After, IsOpen;
    var c := StopsOf(w.g.code, scan, q1, q2);
    OuterFacts(w, scan, q1, q2);
    InnerFacts(w, scan, q1, q2);
    SecondIsPoint(c.inner, q2);
    AtJoin(Pairs(q2), c.inner);
    ArgsAtJoin(Pairs(q2), c.inner, w.args);
    SecondOpId(c.inner, q2);
    FirstFacts(w, scan, q1, q2);
  }

  lemma SecondIsPoint(cs: Cg, q2: Plan)
    ensures JoinPoint(Pairs(q2), cs) == CompileRest(Collect, After(Pairs(q2), cs))
    ensures HasJoin(Pairs(q2)) && OneJoin(Pairs(q2)) && JoinRhs(Pairs(q2)) == q2
    ensures forall jids :: JoinQueue.Left(Pairs(q2), jids) == jids
  {
    hide CompileRest, After;
    assert !HasJoin(Collect) && EndsInCollect(Pairs(q2));
  }

  lemma SecondOpId(cs: Cg, q2: Plan)
    requires Bounded(cs) && IsOpen(cs)
    ensures CompileRest(Collect, After(Pairs(q2), cs)).opId == cs.opId && TotalRest(Pairs(q2)) == TotalPlan(q2)
  {
    hide After;
    VisitKeeps(Pairs(q2), cs);
    VisitKeeps(Collect, After(Pairs(q2), cs));
    ArgSlots.OpIdAfter(Collect, After(Pairs(q2), cs));
  }

  lemma FirstFacts(w: World, scan: Scan, q1: Plan, q2: Plan)
    requires var c, n := StopsOf(w.g.code, scan, q1, q2), Codegen.Start(w.g.code).nextBB;
             && Joinable(w, scan, q1, q2) && Standing(w, q2, c.second, [0, 1], n)
             && ArgsFrom(w.args, c.second.opId + TotalPlan(q2), PlanArgs(q1))
    ensures var c := StopsOf(w.g.code, scan, q1, q2); Standing(w, q1, c.first, [1], c.second.nextBB)
  {
    hide CompileRest, CompilePlan, Extends, GraphOk, Typed, ArgsFrom, RestArgs, RhsTypes, PlanArgs, AfterScan, After,
         Bounded, Codegen.Start;
    FirstOf(StopsOf(w.g.code, scan, q1, q2).second, q2);
  }

  // An input without joins leaves the rest of the queue, and its own entry in front.
  lemma FirstOf(cs: Cg, q: Plan)
    requires Bounded(cs) && RhsOk(q) && !HasJoin(q.rest) && cs.jids != []
    ensures var cs1 := CompilePlan(q, cs);
            && Bounded(cs1) && cs1.dict == cs.dict && cs1.jids == cs.jids[1..] && cs1.nextJid == cs.nextJid
            && cs1.entry == Some(cs.nextBB) && cs1.opId == cs.opId + TotalPlan(q)
  {
    hide CompileRest, Extends, Typed, AfterScan;
    ScanKeeps(q, cs);
    ScanLeaves(q, cs);
    InputTyped(q);
    Straight(q.rest, AfterScan(q, cs));
  }

  // ----- the inputs, ready to run -----

  lemma InputPath(p: Prog, q: Plan, cs: Cg, jids: seq<nat>, entry: BlockId)
    requires Standing(p.w, q, cs, jids, entry) && jids != [] && jids[0] < 2 && RhsOk(q) && GraphOk(p.w.g)
    requires |p.w.args| <= MAX_ARGS && Extends(CompilePlan(q, cs).blocks, p.blocks)
    ensures PathTyped(p, q, cs) && FrontJid(cs) == jids[0] && !EndsInCollect(q.rest)
  {
    hide CompilePlan, Extends, GraphOk, ArgsFrom, PlanArgs, Typed;
    InputTyped(q);
  }

  /** An input without joins runs from its own entry to the next access path: it adds what it makes to the list in
      front of the queue. */
  lemma RunInput(p: Prog, q: Plan, cs: Cg, jids: seq<nat>, entry: BlockId, s: State, k: Flow) returns (s1: State)
    requires Standing(p.w, q, cs, jids, entry) && jids != [] && jids[0] < 2 && RhsOk(q) && !HasJoin(q.rest)
    requires GraphOk(p.w.g) && |p.w.args| <= MAX_ARGS && Extends(CompilePlan(q, cs).blocks, p.blocks)
    requires Clean(p.w.g, s.rt) && k.count == 0 && s.rt.fevList == k.left
    ensures Reaches(p, Run(cs.nextBB, 0, s), Run(entry, 0, s1))
    ensures var o := PushAll(p.w, q.rest, ScanTuples(p.w, q.scan), k);
            && Clean(p.w.g, s1.rt) && s1.rt.fevList == o.k.left && s1.rt.rows == s.rt.rows
            && RhsAt(s1.rt, jids[0]) == RhsAt(s.rt, jids[0]) + o.emit
            && (forall j: nat :: j != jids[0] ==> RhsAt(s1.rt, j) == RhsAt(s.rt, j))
            && AllKinds(RhsTypes(q), o.emit)
  {
    hide CompilePlan, Extends, GraphOk, ArgsFrom, PlanArgs, Typed, Clean, PushAll, ScanTuples, Reaches, AfterScan,
         JoinReady, PathTyped, RhsAt, AllKinds, RhsTypes;
    var o := PushAll(p.w, q.rest, ScanTuples(p.w, q.scan), k);
    InputPath(p, q, cs, jids, entry);
    InputMakes(p.w, q, k);
    NoInput(AfterScan(q, cs), q.rest, s.rt, k.input);
    s1 := RunPath(p, q, cs, s, k);
    var s2 := RunExit(p, q, cs, s1);
    Trans(p, Run(cs.nextBB, 0, s), Run(AfterScan(q, cs).scanEnd, 0, s1), Run(entry, 0, s1));
  }

  lemma InputMakes(w: World, q: Plan, k: Flow)
    requires RhsOk(q) && !HasJoin(q.rest)
    ensures var o := PushAll(w, q.rest, ScanTuples(w, q.scan), k);
            AllKinds(RhsTypes(q), o.emit) && o.exit != Raised
  {
    hide Typed, PushAll, AllKinds, ScanTuples;
    ScanKinds(w, q.scan);
    PushAllKinds(w, q.rest, [0], ScanTuples(w, q.scan), k);
  }

  // ----- the main pipeline, ready to run -----

  lemma TwiceLayout(cs: Cg, q1: Plan, q2: Plan)
    requires TypesOf(cs.regs) == [0] && LayoutOk(cs, Twice(q1, q2))
    ensures LayoutOk(After(Twice(q1, q2), cs), Pairs(q2))
  {
    hide RhsTypes, Grow, JoinBlocks;
    var cs1 := After(Twice(q1, q2), cs);
    RhsBits(q1);
    forall i | 0 <= i < |cs1.regs|
      ensures LocOk(cs1, Pairs(q2), cs1.regs[i])
    {
      if i < |cs.regs| {
        assert TypesOf(cs.regs)[i] == 0;
        assert LocOk(cs, Twice(q1, q2), cs.regs[i]);
      }
    }
  }

  lemma PairsTyped(types: seq<nat>, q: Plan)
    requires Bits(types) && RhsOk(q)
    ensures Typed(Pairs(q), types, true) && EndsInCollect(Pairs(q)) && !HasProject(Pairs(q))
  {
    hide RhsOk, RhsTypes;
    RhsBits(q);
    assert !HasJoin(Collect) && EndsInCollect(Collect) && !HasProject(Collect);
    assert Typed(Collect, types + RhsTypes(q), true);
  }

  lemma TwiceTypes(cs: Cg, q1: Plan, q2: Plan)
    requires TypesOf(cs.regs) == [0]
    ensures Bits(TypesOf(After(Twice(q1, q2), cs).regs))
  {
    hide After, RhsTypes;
    RhsBits(q1);
    Invariance.AddedTypes(Twice(q1, q2), cs);
  }

  lemma TwiceReady(p: Prog, cs: Cg, q1: Plan, q2: Plan)
    requires GraphOk(p.w.g) && |p.w.args| <= MAX_ARGS && cs.dict == p.w.g.code && Bounded(cs) && IsOpen(cs)
    requires Extends(CompileRest(Twice(q1, q2), cs).blocks, p.blocks) && RhsOk(q2)
    requires ArgsFrom(p.w.args, cs.opId, RestArgs(Twice(q1, q2)))
    requires TypesOf(cs.regs) == [0] && LayoutOk(cs, Twice(q1, q2))
    ensures Before(p, cs, q1, q2)
  {
    hide CompileRest, After, Bounded, IsOpen, Extends, GraphOk, Typed, ArgsFrom, RestArgs, RhsOk, LayoutOk;
    var r := Twice(q1, q2);
    VisitKeeps(r, cs);
    AfterInside(r, cs, p.blocks);
    InnerOf(p.w, cs, q1, q2);
    TwiceLayout(cs, q1, q2);
    TwiceTypes(cs, q1, q2);
    PairsTyped(TypesOf(After(r, cs).regs), q2);
    TwiceEnds(q1, q2);
    InnerReady(p, After(r, cs), q2);
  }

  lemma TwiceEnds(q1: Plan, q2: Plan)
    ensures EndsInCollect(Twice(q1, q2)) && !HasProject(Twice(q1, q2)) && !HasVar(Twice(q1, q2))
  {
    assert EndsInCollect(Pairs(q2)) && !HasProject(Collect) && !HasProject(Pairs(q2));
    assert !HasVar(Collect) && !HasVar(Pairs(q2));
  }

  lemma InnerReady(p: Prog, cs: Cg, q2: Plan)
    requires Ready(p, cs, Pairs(q2))
    ensures Simulates(p, After(Pairs(q2), cs), Collect)
  {
    hide Ready, After;
    Invariance.ReadyAfter(p, cs, Pairs(q2));
    SinkProof.SinkSimulates(p, After(Pairs(q2), cs), Collect);
  }

  lemma TwiceAll(w: World, q1: Plan, q2: Plan, ts: seq<Tuple>, k: Flow)
    ensures PushAll(w, Twice(q1, q2), ts, k) == Outcome(FlatMap(w.g, Twice(q1, q2), ts, k.input), k, Back)
  {
    hide FlatMap, PushAll;
    FuseFlat(w, Twice(q1, q2), ts, k);
    EmitAll(w, Collect, FlatMap(w.g, Twice(q1, q2), ts, k.input), k);
  }

  // From the entry of the main access path to the end.
  lemma RunMain(p: Prog, plan: Plan, cs: Cg, q1: Plan, q2: Plan, s: State, k: Flow) returns (s1: State)
    requires plan.rest == Twice(q1, q2) && PathReady(p, plan, cs) && cs.entry == None
    requires Before(p, AfterScan(plan, cs), q1, q2)
    requires Clean(p.w.g, s.rt) && k.count == 0 && s.rt.fevList == k.left
    requires JoinReady(AfterScan(plan, cs), plan.rest, s.rt, k.input)
    ensures Reaches(p, Run(cs.nextBB, 0, s), Done(s1))
    ensures var made := FlatMap(p.w.g, Twice(q1, q2), ScanTuples(p.w, plan.scan), k.input);
            s1.rt.rows == p.w.finish(s.rt.rows + RowsOf(p.w.g, made))
  {
    hide Before, AfterScan, Simulates, Reaches, PushAll, ScanTuples, RowsOf, FlatMap, JoinReady, CacheOk, CompilePlan,
         GraphOk, ArgsFrom, Bounded, Extends, HasProject;
    TwiceEnds(q1, q2);
    TwiceSimulates(p, AfterScan(plan, cs), q1, q2);
    var s0 := AccessPath(p, plan, cs, s, k);
    TwiceAll(p.w, q1, q2, ScanTuples(p.w, plan.scan), k);
    s1 := RunExit(p, plan, cs, s0);
    Trans(p, Run(cs.nextBB, 0, s), Run(AfterScan(plan, cs).scanEnd, 0, s0), Done(s1));
  }

  // ----- the query -----

  // What each input makes, the outer join's first.
  ghost function FirstRun(w: World, q1: Plan, left: seq<nat>): Outcome {
    PushAll(w, q1.rest, ScanTuples(w, q1.scan), Flow(0, left, []))
  }

  ghost function SecondRun(w: World, q1: Plan, q2: Plan, left: seq<nat>): Outcome {
    PushAll(w, q2.rest, ScanTuples(w, q2.scan), Flow(0, FirstRun(w, q1, left).k.left, []))
  }

  lemma BlocksInside(w: World, scan: Scan, q1: Plan, q2: Plan)
    requires Joinable(w, scan, q1, q2)
    ensures var c, p := StopsOf(w.g.code, scan, q1, q2), Program(w, Plan(scan, Twice(q1, q2)));
            && Compile(w.g.code, Plan(scan, Twice(q1, q2))) == CompilePlan(q1, c.first)
            && Extends(CompilePlan(q1, c.first).blocks, p.blocks) && Extends(CompilePlan(q2, c.second).blocks, p.blocks)
            && Extends(CompileRest(Twice(q1, q2), c.outer).blocks, p.blocks)
  {
    hide GraphOk, Typed, ArgsFrom, RestArgs, RhsTypes, PlanArgs, AfterScan, After, Bounded;
    var c := StopsOf(w.g.code, scan, q1, q2);
    InputFacts(w, scan, q1, q2);
    Unrolled(c.outer, q1, q2);
    FirstInside(c.second, q1, q2);
  }

  lemma FirstInside(cs: Cg, q1: Plan, q2: Plan)
    requires Bounded(CompilePlan(q2, cs))
    ensures Extends(CompilePlan(q2, cs).blocks, CompilePlan(q1, CompilePlan(q2, cs)).blocks)
  {
    hide CompilePlan;
    PlanKeeps(q1, CompilePlan(q2, cs));
  }

  lemma Unrolled(cs: Cg, q1: Plan, q2: Plan)
    ensures CompileRest(Twice(q1, q2), cs)
            == CompilePlan(q1, CompilePlan(q2, CompileRest(Collect, After(Pairs(q2), After(Twice(q1, q2), cs)))))
  {
    hide After, CompilePlan;
    var cs1 := After(Twice(q1, q2), cs);
    assert CompileRest(Pairs(q2), cs1) == CompilePlan(q2, CompileRest(Collect, After(Pairs(q2), cs1)));
  }

  lemma FirstEntry(w: World, scan: Scan, q1: Plan, q2: Plan)
    requires Joinable(w, scan, q1, q2)
    ensures Compile(w.g.code, Plan(scan, Twice(q1, q2))).entry == Some(StopsOf(w.g.code, scan, q1, q2).first.nextBB)
  {
    hide GraphOk, Typed, ArgsFrom, RestArgs, RhsTypes, PlanArgs, AfterScan, After, Bounded, CompileRest, CompilePlan,
         Compile, Extends;
    InputFacts(w, scan, q1, q2);
    BlocksInside(w, scan, q1, q2);
    FirstOf(StopsOf(w.g.code, scan, q1, q2).first, q1);
  }

  // What the inputs of the two joins hold when the main pipeline starts: each what the other's makes.
  ghost function OuterRows(w: World, q1: Plan, q2: Plan, rt: Rt): seq<Tuple> {
    RhsAt(rt, 0) + SecondRun(w, q1, q2, rt.fevList).emit
  }

  ghost function InnerRows(w: World, q1: Plan, rt: Rt): seq<Tuple> {
    RhsAt(rt, 1) + FirstRun(w, q1, rt.fevList).emit
  }

  /** The emitted function halts, having appended for each tuple of the scan the pairs with the first row of one list
      and each of the other. */
  lemma TwoJoinsRun(w: World, scan: Scan, q1: Plan, q2: Plan, s: State) returns (s1: State)
    requires Joinable(w, scan, q1, q2) && Clean(w.g, s.rt)
    requires Readable(RhsTypes(q1), OuterRows(w, q1, q2, s.rt)) && Readable(RhsTypes(q2), InnerRows(w, q1, s.rt))
    ensures var input := FirstWith(OuterRows(w, q1, q2, s.rt), InnerRows(w, q1, s.rt));
            var made := FlatMap(w.g, Twice(q1, q2), ScanTuples(w, scan), input);
            Ends(w, Plan(scan, Twice(q1, q2)), s, false, s.rt.rows + RowsOf(w.g, made), s1)
  {
    hide GraphOk, RhsOk, ArgsFrom, PlanArgs, AfterScan, After, Bounded, Extends, CompileRest, CompilePlan, Compile,
         Clean, PushAll, ScanTuples, Reaches, RhsAt, AllKinds, RhsTypes, FlatMap, RowsOf, FirstWith, Readable, IsOpen,
         HasKinds;
    var plan, start := Plan(scan, Twice(q1, q2)), Codegen.Start(w.g.code);
    var p, c := Program(w, plan), StopsOf(w.g.code, scan, q1, q2);
    InputFacts(w, scan, q1, q2);
    BlocksInside(w, scan, q1, q2);
    FirstEntry(w, scan, q1, q2);
    var a := RunInput(p, q1, c.first, [1], c.second.nextBB, s, Flow(0, s.rt.fevList, []));
    var b := RunInput(p, q2, c.second, [0, 1], start.nextBB, a, Flow(0, a.rt.fevList, []));
    Trans(p, Run(c.first.nextBB, 0, s), Run(c.second.nextBB, 0, a), Run(start.nextBB, 0, b));
    assert RhsAt(b.rt, 0) == OuterRows(w, q1, q2, s.rt) && RhsAt(b.rt, 1) == InnerRows(w, q1, s.rt);
    var k := Flow(0, b.rt.fevList, FirstWith(RhsAt(b.rt, 0), RhsAt(b.rt, 1)));
    MainReady(w, scan, q1, q2, b, k);
    s1 := RunMain(p, plan, start, q1, q2, b, k);
    Trans(p, Run(c.first.nextBB, 0, s), Run(start.nextBB, 0, b), Done(s1));
  }

  lemma MainReady(w: World, scan: Scan, q1: Plan, q2: Plan, s: State, k: Flow)
    requires Joinable(w, scan, q1, q2) && k.input == FirstWith(RhsAt(s.rt, 0), RhsAt(s.rt, 1))
    requires Readable(RhsTypes(q1), RhsAt(s.rt, 0)) && Readable(RhsTypes(q2), RhsAt(s.rt, 1))
    ensures var plan, start := Plan(scan, Twice(q1, q2)), Codegen.Start(w.g.code);
            var p, outer := Program(w, plan), AfterScan(plan, start);
            && PathReady(p, plan, start) && start.entry == None && Before(p, outer, q1, q2)
            && JoinReady(outer, plan.rest, s.rt, k.input)
  {
    hide GraphOk, RhsOk, ArgsFrom, PlanArgs, AfterScan, After, Extends, CompileRest, RhsAt, RhsTypes, FirstWith,
         Readable, Before, RestArgs, LayoutOk;
    var c, p := StopsOf(w.g.code, scan, q1, q2), Program(w, Plan(scan, Twice(q1, q2)));
    OuterFacts(w, scan, q1, q2);
    BlocksInside(w, scan, q1, q2);
    TwiceReady(p, c.outer, q1, q2);
    TwiceEnds(q1, q2);
    ExtendsSelf(p.blocks);
  }

  lemma ExtendsSelf(bs: Blocks)
    ensures Extends(bs, bs)
  {
  }

  // ----- when that is what the plan means -----

  // The columns of the two inputs may be exchanged.
  predicate Commute(g: Graph, rows: seq<Tuple>, e: Tuple) {
    forall i :: 0 <= i < |rows| ==> RowOf(g, rows[i] + e) == RowOf(g, e + rows[i])
  }

  lemma RowPrefix(g: Graph, t: Tuple, a: Tuple, b: Tuple)
    ensures RowOf(g, t + a) == RowOf(g, t + b) <==> RowOf(g, a) == RowOf(g, b)
  {
    RowAppend(g, t, a);
    RowAppend(g, t, b);
    assert RowOf(g, a) == RowOf(g, t + a)[|t|..] && RowOf(g, b) == RowOf(g, t + b)[|t|..];
  }

  lemma RowAppend(g: Graph, a: Tuple, b: Tuple)
    ensures RowOf(g, a + b) == RowOf(g, a) + RowOf(g, b)
  {
  }

  lemma RowsCons(g: Graph, t: Tuple, ts: seq<Tuple>)
    ensures RowsOf(g, [t] + ts) == [RowOf(g, t)] + RowsOf(g, ts)
  {
  }

  lemma SameFirst(a: Row, s: seq<Row>, b: Row, u: seq<Row>)
    ensures [a] + s == [b] + u <==> a == b && s == u
  {
    assert s == ([a] + s)[1..] && u == ([b] + u)[1..] && a == ([a] + s)[0] && b == ([b] + u)[0];
  }

  lemma {:induction false} OneTuple(g: Graph, q2: Plan, t: Tuple, rows: seq<Tuple>, e: Tuple)
    ensures var meant, made := FlatMap(g, Pairs(q2), CrossTuples(t, rows), [e]), CrossTuples(t, CrossTuples(e, rows));
            |meant| == |made| == |rows| && (RowsOf(g, meant) == RowsOf(g, made) <==> Commute(g, rows, e))
    decreases |rows|
  {
    hide RowsOf, RowOf;
    if rows != [] {
      var r, rest := rows[0], rows[1..];
      var meant, made := FlatMap(g, Pairs(q2), CrossTuples(t, rest), [e]), CrossTuples(t, CrossTuples(e, rest));
      OneTuple(g, q2, t, rest, e);
      OneRow(g, q2, t, r, rest, e);
      RowsCons(g, t + r + e, meant);
      RowsCons(g, t + (e + r), made);
      SameFirst(RowOf(g, t + r + e), RowsOf(g, meant), RowOf(g, t + (e + r)), RowsOf(g, made));
      assert t + r + e == t + (r + e);
      RowPrefix(g, t, r + e, e + r);
      assert rows == [r] + rest;
      assert Commute(g, rows, e) <==> RowOf(g, r + e) == RowOf(g, e + r) && Commute(g, rest, e) by {
        CommuteFirst(g, r, rest, e);
      }
    }
  }

  lemma CommuteFirst(g: Graph, r: Tuple, rest: seq<Tuple>, e: Tuple)
    ensures Commute(g, [r] + rest, e) <==> RowOf(g, r + e) == RowOf(g, e + r) && Commute(g, rest, e)
  {
    hide RowOf;
    var rows := [r] + rest;
    assert rows[0] == r && forall i :: 0 <= i < |rest| ==> rest[i] == rows[i + 1];
    if Commute(g, rows, e) {
      forall i | 0 <= i < |rest|
        ensures RowOf(g, rest[i] + e) == RowOf(g, e + rest[i])
      {
        assert rest[i] == rows[i + 1];
      }
    }
  }

  lemma OneRow(g: Graph, q2: Plan, t: Tuple, r: Tuple, rest: seq<Tuple>, e: Tuple)
    ensures FlatMap(g, Pairs(q2), CrossTuples(t, [r] + rest), [e])
            == [t + r + e] + FlatMap(g, Pairs(q2), CrossTuples(t, rest), [e])
    ensures CrossTuples(t, CrossTuples(e, [r] + rest)) == [t + (e + r)] + CrossTuples(t, CrossTuples(e, rest))
  {
    var rows := [r] + rest;
    assert rows[0] == r && rows[1..] == rest;
    assert CrossTuples(t, rows) == [t + r] + CrossTuples(t, rest);
    assert CrossTuples(t + r, [e]) == [t + r + e] + CrossTuples(t + r, []);
    assert CrossTuples(e, rows)[1..] == CrossTuples(e, rest);
  }

  lemma {:induction false} FlatAppend(g: Graph, r: Rest, a: seq<Tuple>, b: seq<Tuple>, rows: seq<Tuple>)
    requires IsFlat(r)
    ensures FlatMap(g, r, a + b, rows) == FlatMap(g, r, a, rows) + FlatMap(g, r, b, rows)
    decreases |a|
  {
    hide NextTuples;
    if a == [] {
      assert a + b == b;
    } else {
      FlatAppend(g, r, a[1..], b, rows);
      assert (a + b)[1..] == a[1..] + b;
    }
  }

  lemma RowsSplit(g: Graph, a: seq<Tuple>, b: seq<Tuple>, c: seq<Tuple>, d: seq<Tuple>)
    requires |a| == |c|
    ensures RowsOf(g, a + b) == RowsOf(g, c + d) <==> RowsOf(g, a) == RowsOf(g, c) && RowsOf(g, b) == RowsOf(g, d)
  {
    RowsOfAppend(g, a, b);
    RowsOfAppend(g, c, d);
    assert RowsOf(g, a) == RowsOf(g, a + b)[..|a|] && RowsOf(g, c) == RowsOf(g, c + d)[..|a|];
    assert RowsOf(g, b) == RowsOf(g, a + b)[|a|..] && RowsOf(g, d) == RowsOf(g, c + d)[|a|..];
  }

  lemma {:induction false} OneRight(g: Graph, q1: Plan, q2: Plan, ts: seq<Tuple>, rows: seq<Tuple>, e: Tuple)
    ensures var meant := FlatMap(g, Pairs(q2), FlatMap(g, Twice(q1, q2), ts, rows), [e]);
            var made := FlatMap(g, Twice(q1, q2), ts, CrossTuples(e, rows));
            RowsOf(g, meant) == RowsOf(g, made) <==> ts == [] || Commute(g, rows, e)
    decreases |ts|
  {
    hide RowsOf, Commute;
    if ts != [] {
      var t, rest := ts[0], ts[1..];
      OneRight(g, q1, q2, rest, rows, e);
      OneTuple(g, q2, t, rows, e);
      FlatAppend(g, Pairs(q2), CrossTuples(t, rows), FlatMap(g, Twice(q1, q2), rest, rows), [e]);
      RowsSplit(g, FlatMap(g, Pairs(q2), CrossTuples(t, rows), [e]),
                FlatMap(g, Pairs(q2), FlatMap(g, Twice(q1, q2), rest, rows), [e]),
                CrossTuples(t, CrossTuples(e, rows)), FlatMap(g, Twice(q1, q2), rest, CrossTuples(e, rows)));
    }
  }

  // In terms of the rows of both inputs.
  ghost predicate Harmless(g: Graph, ts: seq<Tuple>, rows1: seq<Tuple>, rows2: seq<Tuple>) {
    ts == [] || rows1 == [] || rows2 == [] || (|rows2| == 1 && Commute(g, rows1, rows2[0]))
  }

  lemma MadeIff(g: Graph, q1: Plan, q2: Plan, ts: seq<Tuple>, rows1: seq<Tuple>, rows2: seq<Tuple>)
    ensures var meant := FlatMap(g, Pairs(q2), FlatMap(g, Twice(q1, q2), ts, rows1), rows2);
            var made := FlatMap(g, Twice(q1, q2), ts, FirstWith(rows2, rows1));
            RowsOf(g, meant) == RowsOf(g, made) <==> Harmless(g, ts, rows1, rows2)
  {
    hide RowsOf, Commute, FlatMap, CrossTuples;
    var between := FlatMap(g, Twice(q1, q2), ts, rows1);
    var meant, made := FlatMap(g, Pairs(q2), between, rows2), FlatMap(g, Twice(q1, q2), ts, FirstWith(rows2, rows1));
    PairCount(g, Twice(q1, q2), ts, rows1);
    PairCount(g, Pairs(q2), between, rows2);
    PairCount(g, Twice(q1, q2), ts, FirstWith(rows2, rows1));
    RowsCount(g, meant);
    RowsCount(g, made);
    if rows2 != [] {
      CrossCount(rows2[0], rows1);
    }
    if ts == [] || rows1 == [] || rows2 == [] {
      assert |meant| == 0 && |made| == 0 by { NoneOf(|ts|, |rows1|, |rows2|); }
      assert meant == made == [];
    } else if |rows2| == 1 {
      assert rows2 == [rows2[0]];
      OneRight(g, q1, q2, ts, rows1, rows2[0]);
    } else {
      ManyOf(|ts| * |rows1|, |rows2|);
      assert |ts| * |rows1| > 0 by { Positive(|ts|, |rows1|); }
    }
  }

  lemma RowsCount(g: Graph, ts: seq<Tuple>)
    ensures |RowsOf(g, ts)| == |ts|
  {
  }

  lemma NoneOf(a: nat, b: nat, c: nat)
    requires a == 0 || b == 0 || c == 0
    ensures a * b * c == 0 && (c > 0 ==> a * b == 0) && a * 0 == 0
  {
  }

  lemma ManyOf(a: nat, c: nat)
    requires c > 1
    ensures a > 0 ==> a * c > a
  {
  }

  lemma Positive(a: nat, b: nat)
    requires a > 0 && b > 0
    ensures a * b > 0
  {
  }

  lemma TwiceMeans(w: World, scan: Scan, q1: Plan, q2: Plan)
    ensures Eval(w, Plan(scan, Twice(q1, q2))).ts
            == FlatMap(w.g, Pairs(q2), FlatMap(w.g, Twice(q1, q2), ScanTuples(w, scan), Eval(w, q1).ts), Eval(w, q2).ts)
  {
    hide FlatMap, ScanTuples;
    var s := Stream(ScanTuples(w, scan), false);
    assert SecondInput(w, Twice(q1, q2)) == Eval(w, q1).ts && SecondInput(w, Pairs(q2)) == Eval(w, q2).ts;
    var s1 := Apply(w, Twice(q1, q2), s);
    assert s1 == Stream(FlatMap(w.g, Twice(q1, q2), s.ts, Eval(w, q1).ts), false);
    var s2 := Apply(w, Pairs(q2), s1);
    assert Denote(w, Collect, s2) == s2;
    assert Denote(w, Pairs(q2), s1) == s2;
    assert Denote(w, Twice(q1, q2), s) == s2;
  }

  /** Two cross joins in a row, in the emitted function: from a state with nothing left over, the rows it appends are
      the plan's if and only if the scan or one of the inputs is empty, or the inner join's input has a single
      row and exchanging the columns of the two inputs changes nothing. */
  lemma TwoJoinsEmitted(w: World, scan: Scan, q1: Plan, q2: Plan, s: State) returns (s1: State)
    requires Joinable(w, scan, q1, q2) && AllOneLimit(q1) && AllOneLimit(q2) && (HasVar(q2.rest) ==> !Halves(w, q1))
    requires Clean(w.g, s.rt) && s.rt.fevList == [] && RhsAt(s.rt, 0) == [] && RhsAt(s.rt, 1) == []
    requires |Eval(w, q1).ts| < MAX_ROWS && |Eval(w, q2).ts| < MAX_ROWS
    ensures var plan, ts := Plan(scan, Twice(q1, q2)), ScanTuples(w, scan);
            var rows1, rows2 := Eval(w, q1).ts, Eval(w, q2).ts;
            var rows := s.rt.rows + RowsOf(w.g, FlatMap(w.g, Twice(q1, q2), ts, FirstWith(rows2, rows1)));
            && Ends(w, plan, s, false, rows, s1)
            && (rows == Answer(w, plan, s.rt.rows) <==> Harmless(w.g, ts, rows1, rows2))
  {
    hide Eval, Ends, RowsOf, FlatMap, ScanTuples, PushAll, Clean, GraphOk, RhsOk, ArgsFrom, PlanArgs, RhsTypes, Halves,
         Harmless, AllOneLimit, FirstWith, RhsAt;
    InputsMeant(w, q1, q2, s.rt);
    s1 := TwoJoinsRun(w, scan, q1, q2, s);
    var made := FlatMap(w.g, Twice(q1, q2), ScanTuples(w, scan), FirstWith(Eval(w, q2).ts, Eval(w, q1).ts));
    MadeIff(w.g, q1, q2, ScanTuples(w, scan), Eval(w, q1).ts, Eval(w, q2).ts);
    TwiceMeans(w, scan, q1, q2);
    SamePrefix(s.rt.rows, RowsOf(w.g, Eval(w, Plan(scan, Twice(q1, q2))).ts), RowsOf(w.g, made));
  }

  lemma SamePrefix(before: seq<Row>, a: seq<Row>, b: seq<Row>)
    ensures before + a == before + b <==> a == b
  {
    assert a == (before + a)[|before|..] && b == (before + b)[|before|..];
  }

  lemma InputsMeant(w: World, q1: Plan, q2: Plan, rt: Rt)
    requires RhsOk(q1) && RhsOk(q2) && !HasJoin(q1.rest) && !HasJoin(q2.rest) && RhsTypes(q1) == RhsTypes(q2)
    requires AllOneLimit(q1) && AllOneLimit(q2) && (HasVar(q2.rest) ==> !Halves(w, q1))
    requires rt.fevList == [] && RhsAt(rt, 0) == [] && RhsAt(rt, 1) == []
    requires |Eval(w, q1).ts| < MAX_ROWS && |Eval(w, q2).ts| < MAX_ROWS
    ensures OuterRows(w, q1, q2, rt) == Eval(w, q2).ts && InnerRows(w, q1, rt) == Eval(w, q1).ts
    ensures Readable(RhsTypes(q1), Eval(w, q2).ts) && Readable(RhsTypes(q2), Eval(w, q1).ts)
  {
    hide Eval, PushAll, ScanTuples, RhsTypes, HalfWay, HasKinds, Typed, RhsAt;
    InputTyped(q1);
    InputTyped(q2);
    TypedSingle(q1.rest, [0], false);
    TypedSingle(q2.rest, [0], false);
    NoInputs(w, q1);
    PlanKinds(w, q1);
    PlanKinds(w, q2);
    OwnMeans(w, q1, Flow(0, [], []));
    OwnMeans(w, q2, Flow(0, FirstRun(w, q1, []).k.left, []));
    assert [] + Eval(w, q1).ts == Eval(w, q1).ts && [] + Eval(w, q2).ts == Eval(w, q2).ts;
  }
}
