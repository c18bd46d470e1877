/** Compiler correctness: the function emitted for a plan halts, and has appended to the result set
    exactly the rows of the plan's meaning, in order and multiplicity. */
module Correctness {
  import opened Storage
  import opened Runtime
  import opened Machine
  import opened Plan
  import opened Algebra
  import opened Codegen
  import opened Shape
  import opened Simulation
  import opened Kinds
  import opened Runs
  import opened Invariance
  import ForeachProof
  import VariableProof
  import ExpandProof
  import FilterProof
  import LimitProof
  import ProjectProof
  import JoinProof
  import JoinQueue
  import LeftOuterProof
  import SinkProof
  import opened ScanProof

  /** The blocks of every pipeline carry out its operators. */
  lemma {:induction false} PipelineSimulates(p: Prog, cs: Cg, r: Rest)
    requires Ready(p, cs, r)
    ensures Simulates(p, cs, r)
    decreases r
  {
    hide Ready, Simulates;
    if EndsPipeline(r) {
      SinkProof.SinkSimulates(p, cs, r);
    } else {
      ReadyAfter(p, cs, r);
      PipelineSimulates(p, After(r, cs), Tail(r));
      OperatorSimulates(p, cs, r);
    }
  }

  lemma OperatorSimulates(p: Prog, cs: Cg, r: Rest)
    requires Ready(p, cs, r) && !EndsPipeline(r) && Simulates(p, After(r, cs), Tail(r))
    ensures Simulates(p, cs, r)
  {
    hide Ready, Simulates, After;
    if r.Foreach? {
      if IsVariable(r) { VariableProof.VariableSimulates(p, cs, r); } else { ForeachProof.ForeachSimulates(p, cs, r); }
    } else if r.Expand? {
      ExpandProof.ExpandSimulates(p, cs, r);
    } else if r.Filter? {
      FilterProof.FilterSimulates(p, cs, r);
    } else if r.Project? {
      ProjectProof.ProjectSimulates(p, cs, r);
    } else if r.Limit? {
      LimitProof.LimitSimulates(p, cs, r);
    } else if r.Sort? {
      LimitProof.SortSimulates(p, cs, r);
    } else if r.kind == Cross {
      JoinProof.CrossSimulates(p, cs, r);
    } else {
      LeftOuterProof.LeftOuterSimulates(p, cs, r);
    }
  }

  // ----- the join of a pipeline, at compile time -----

  // The visitor's state in which the second input of the pipeline's join is compiled.
  function JoinPoint(r: Rest, cs: Cg): Cg
    requires HasJoin(r)
  {
    if r.Join? then CompileRest(r.lhs, After(r, cs)) else JoinPoint(Tail(r), After(r, cs))
  }

  // A pipeline without a join changes the function and the counters only.
  lemma {:induction false} Straight(r: Rest, cs: Cg)
    requires !HasJoin(r) && Bounded(cs) && IsOpen(cs)
    ensures var e := CompileRest(r, cs);
            && Bounded(e) && e.entry == cs.entry && e.dict == cs.dict && e.nextJid == cs.nextJid
            && e.jids == JoinQueue.Left(r, cs.jids)
    ensures CompileRest(r, cs).opId == cs.opId + TotalRest(r)
    decreases r
  {
    hide Bounded, IsOpen, Extends;
    VisitKeeps(r, cs);
    if !EndsPipeline(r) {
      hide After;
      Straight(Tail(r), After(r, cs));
    }
  }

  /** The second input is compiled last, with the id of its own join alone in the queue. */
  lemma {:induction false} AtJoin(r: Rest, cs: Cg)
    requires HasJoin(r) && OneJoin(r) && Bounded(cs) && IsOpen(cs)
    ensures CompileRest(r, cs) == CompilePlan(JoinRhs(r), JoinPoint(r, cs))
    ensures var e := JoinPoint(r, cs);
            && Bounded(e) && e.entry == cs.entry && e.dict == cs.dict && e.nextJid == cs.nextJid + 1
            && e.jids == JoinQueue.Left(r, cs.jids + [cs.nextJid])
    decreases r
  {
    hide Bounded, IsOpen, Extends, After, CompilePlan;
    VisitKeeps(r, cs);
    if r.Join? {
      Straight(r.lhs, After(r, cs));
    } else {
      AtJoin(Tail(r), After(r, cs));
    }
  }

  // The second input finds its arguments from the counter it is compiled with.
  lemma {:induction false} ArgsAtJoin(r: Rest, cs: Cg, args: seq<Arg>)
    requires HasJoin(r) && OneJoin(r) && Bounded(cs) && IsOpen(cs) && ArgsFrom(args, cs.opId, RestArgs(r))
    ensures ArgsFrom(args, JoinPoint(r, cs).opId, PlanArgs(JoinRhs(r)))
    decreases r
  {
    hide Bounded, IsOpen, Extends, After, CompilePlan, ArgsFrom;
    VisitKeeps(r, cs);
    if r.Join? {
      ArgsSplit(args, cs.opId, RestArgs(r.lhs), PlanArgs(r.rhs));
      RestArgsTotal(r.lhs);
      Straight(r.lhs, After(r, cs));
    } else {
      ArgsAfter(args, cs.opId, r);
      ArgsAtJoin(Tail(r), After(r, cs), args);
    }
  }

  // ----- running a plan -----

  // Between access paths the row buffers are empty, and the description caches are those of the database.
  ghost predicate Clean(g: Graph, rt: Rt) {
    rt.tp == [] && rt.mat == [] && CacheOk(g, rt)
  }

  // The inputs of n joins from an id on.
  function Contents(rt: Rt, jid: nat, n: nat): (had: seq<seq<Tuple>>)
    ensures |had| == n
    decreases n
  {
    if n == 0 then [] else [RhsAt(rt, jid)] + Contents(rt, jid + 1, n - 1)
  }

  ghost function Had(plan: Plan, cs: Cg, s: State): seq<seq<Tuple>> {
    Contents(s.rt, cs.nextJid, |Inputs(plan.rest)|)
  }

  lemma ContentsFirst(rt: Rt, jid: nat, n: nat)
    ensures Contents(rt, jid, n + 1) == [RhsAt(rt, jid)] + Contents(rt, jid + 1, n)
  {
  }

  // The queue of join ids when an access path is compiled: the id of the join it feeds, if any.
  predicate OwnJid(plan: Plan, cs: Cg) {
    if EndsInCollect(plan.rest) then cs.jids == [] else |cs.jids| == 1 && cs.jids[0] < cs.nextJid
  }

  ghost predicate RunReady(p: Prog, plan: Plan, cs: Cg) {
    PathTyped(p, plan, cs) && OwnJid(plan, cs)
  }

  ghost predicate PathTyped(p: Prog, plan: Plan, cs: Cg) {
    PathReady(p, plan, cs) && Typed(plan.rest, [0], EndsInCollect(plan.rest))
  }

  // The effect of a plan on the result set and on the inputs of joins known outside it.
  ghost predicate PlanRan(p: Prog, plan: Plan, cs: Cg, s: State, o: Outcome, s1: State) {
    && s1.rt.rows == (if EndsInCollect(plan.rest) then s.rt.rows + RowsOf(p.w.g, o.emit) else s.rt.rows)
    && (forall j: nat :: j < cs.nextJid ==>
          RhsAt(s1.rt, j) ==
          if !EndsInCollect(plan.rest) && j == FrontJid(cs) then RhsAt(s.rt, j) + o.emit else RhsAt(s.rt, j))
    && (o.exit != Raised ==> Clean(p.w.g, s1.rt) && s1.rt.fevList == o.k.left)
  }

  // The second input of the plan's join, and where it is compiled.
  lemma InputReady(p: Prog, plan: Plan, cs: Cg)
    requires RunReady(p, plan, cs) && HasJoin(plan.rest)
    ensures var q, cq := JoinRhs(plan.rest), JoinPoint(plan.rest, AfterScan(plan, cs));
            && RunReady(p, q, cq) && RhsOk(q) && CompilePlan(plan, cs) == CompilePlan(q, cq)
            && cq.entry == Some(cs.nextBB) && cq.nextJid == cs.nextJid + 1 && cq.jids == [cs.nextJid]
  {
    hide CompileRest, Bounded, IsOpen, Extends, GraphOk, Typed, ArgsFrom, RestArgs, VisitScan, HasProject;
    var cs1, q := AfterScan(plan, cs), JoinRhs(plan.rest);
    PathEmitted(p, plan, cs);
    ScanLeaves(plan, cs);
    TypedSingle(plan.rest, [0], EndsInCollect(plan.rest));
    AtJoin(plan.rest, cs1);
    ArgsSplit(p.w.args, cs.opId, ScanArgs(plan.scan), RestArgs(plan.rest));
    ArgsAtJoin(plan.rest, cs1, p.w.args);
    InputTyped(q);
  }

  lemma InputTyped(q: Plan)
    requires RhsOk(q)
    ensures Typed(q.rest, [0], false) && !EndsInCollect(q.rest) && !HasProject(q.rest)
  {
    TypedSingle(q.rest, [0], false);
  }

  lemma ScanLeaves(plan: Plan, cs: Cg)
    ensures var cs1 := AfterScan(plan, cs);
            && cs1.jids == cs.jids && cs1.nextJid == cs.nextJid && cs1.entry == Some(cs.nextBB) && cs1.dict == cs.dict
            && cs1.opId == cs.opId + |ScanArgs(plan.scan)|
            && (cs.projectString == [] ==> cs1.projectKeys == PipelineKeys(plan.rest))
  {
    assert [] + PipelineKeys(plan.rest) == PipelineKeys(plan.rest);
  }

  lemma FirstReady(p: Prog, plan: Plan, cs: Cg)
    requires PathTyped(p, plan, cs)
    ensures Ready(p, AfterScan(plan, cs), plan.rest)
    ensures !EndsInCollect(plan.rest) ==> cs.jids != [] && cs.jids[0] < cs.nextJid
  {
    hide CompileRest, Bounded, IsOpen, Extends, GraphOk, Typed, RestArgs, VisitScan, HasProject;
    PathEmitted(p, plan, cs);
    ScanLeaves(plan, cs);
    ArgsSplit(p.w.args, cs.opId, ScanArgs(plan.scan), RestArgs(plan.rest));
    FirstLayout(plan, cs);
  }

  lemma FirstLayout(plan: Plan, cs: Cg)
    ensures TypesOf(AfterScan(plan, cs).regs) == [0] && LayoutOk(AfterScan(plan, cs), plan.rest)
  {
    hide ScanBlocks, IndexBlocks;
  }

  // The access path of a plan whose join input, if any, is complete.
  lemma RunPath(p: Prog, plan: Plan, cs: Cg, s: State, k: Flow) returns (s1: State)
    requires PathTyped(p, plan, cs)
    requires Clean(p.w.g, s.rt) && k.count == 0 && s.rt.fevList == k.left
    requires JoinReady(AfterScan(plan, cs), plan.rest, s.rt, k.input)
    ensures var o := PushAll(p.w, plan.rest, ScanTuples(p.w, plan.scan), k);
            && PlanRan(p, plan, cs, s, o, s1)
            && Leaves(p, AfterScan(plan, cs), Run(cs.nextBB, 0, s), o.exit, s1)
    ensures forall j: nat :: j >= cs.nextJid ==> RhsAt(s1.rt, j) == RhsAt(s.rt, j)
  {
    hide Ready, PathReady, Simulates, AfterScan, PushAll, ScanTuples, JoinReady, Leaves, Calm, HasVar, HasProject,
         EndsInCollect, CacheOk, Typed;
    FirstReady(p, plan, cs);
    PipelineSimulates(p, AfterScan(plan, cs), plan.rest);
    s1 := AccessPath(p, plan, cs, s, k);
    ScanLeaves(plan, cs);
    PathRan(p, plan, cs, s, PushAll(p.w, plan.rest, ScanTuples(p.w, plan.scan), k), s1);
  }

  lemma PathRan(p: Prog, plan: Plan, cs: Cg, s: State, o: Outcome, s1: State)
    requires Swept(p, AfterScan(plan, cs), plan.rest, s, o, s1)
             && (!EndsInCollect(plan.rest) ==> cs.jids != [] && cs.jids[0] < cs.nextJid)
    ensures PlanRan(p, plan, cs, s, o, s1)
    ensures forall j: nat :: j >= cs.nextJid ==> RhsAt(s1.rt, j) == RhsAt(s.rt, j)
  {
    hide AfterScan, HasProject, HasVar, EndsInCollect, CacheOk;
    ScanLeaves(plan, cs);
  }

  // With its join input complete, a plan's own access path finds it.
  lemma InputComplete(p: Prog, plan: Plan, cs: Cg, s: State, s1: State)
    requires RunReady(p, plan, cs) && HasJoin(plan.rest) && Sound(p.w, plan, s.rt.fevList, Had(plan, cs, s))
    requires PlanRan(p, JoinRhs(plan.rest), JoinPoint(plan.rest, AfterScan(plan, cs)), s,
                     Running(p.w, JoinRhs(plan.rest), s.rt.fevList, Had(plan, cs, s)[1..]), s1)
    ensures var k := Entry(p.w, plan, s.rt.fevList, Had(plan, cs, s));
            && JoinReady(AfterScan(plan, cs), plan.rest, s1.rt, k.input) && RhsAt(s1.rt, cs.nextJid) == k.input
            && Clean(p.w.g, s1.rt) && s1.rt.fevList == k.left && k.count == 0
    ensures s1.rt.rows == s.rt.rows && forall j: nat :: j < cs.nextJid ==> RhsAt(s1.rt, j) == RhsAt(s.rt, j)
    ensures Running(p.w, JoinRhs(plan.rest), s.rt.fevList, Had(plan, cs, s)[1..]).exit != Raised
  {
    hide AfterScan, Running, Clean, RhsOk, AllKinds, RowsOf, JoinReady, Typed, GraphOk, ArgsFrom, Bounded, Extends,
         CompilePlan;
    var q, had := JoinRhs(plan.rest), Had(plan, cs, s);
    InputReady(p, plan, cs);
    ScanLeaves(plan, cs);
    InputTyped(q);
    RunningKinds(p.w, q, s.rt.fevList, had[1..]);
    EntryKinds(p.w, plan, s.rt.fevList, had);
    TypedSingle(plan.rest, [0], EndsInCollect(plan.rest));
    FedReady(AfterScan(plan, cs), plan.rest, s1.rt, Entry(p.w, plan, s.rt.fevList, had).input);
  }

  lemma FedReady(cs: Cg, r: Rest, rt: Rt, input: seq<Tuple>)
    requires HasJoin(r) && OneJoin(r) && RhsAt(rt, cs.nextJid) == input && |input| < MAX_ROWS
    requires AllKinds(RhsTypes(JoinRhs(r)), input)
    ensures JoinReady(cs, r, rt, input)
  {
    hide HasKinds, RhsTypes, RhsAt;
    FirstIsOnly(r);
  }

  // The end of the second input leads to the plan's own access path.
  lemma ToOwnPath(p: Prog, plan: Plan, cs: Cg, from_: Config, exit: Exit, s: State)
    requires RunReady(p, plan, cs) && HasJoin(plan.rest) && exit != Raised
    requires var q, cq := JoinRhs(plan.rest), JoinPoint(plan.rest, AfterScan(plan, cs));
             Leaves(p, AfterScan(q, cq), from_, exit, s)
    ensures Reaches(p, from_, Run(cs.nextBB, 0, s))
  {
    hide Reaches, AfterScan, CompilePlan;
    var q, cq := JoinRhs(plan.rest), JoinPoint(plan.rest, AfterScan(plan, cs));
    InputReady(p, plan, cs);
    var s1 := RunExit(p, q, cq, s);
    Trans(p, from_, Run(AfterScan(q, cq).scanEnd, 0, s), Run(cs.nextBB, 0, s));
  }

  lemma OwnEntry(p: Prog, plan: Plan, cs: Cg)
    requires RunReady(p, plan, cs) && !HasJoin(plan.rest)
    ensures CompilePlan(plan, cs).entry == Some(cs.nextBB)
  {
    hide Eval, CompileRest, AfterScan, Bounded, IsOpen, Extends;
    PathEmitted(p, plan, cs);
    ScanLeaves(plan, cs);
    Straight(plan.rest, AfterScan(plan, cs));
  }

  lemma RanAfter(p: Prog, plan: Plan, cs: Cg, s: State, s1: State, o: Outcome, s2: State)
    requires s1.rt.rows == s.rt.rows && forall j: nat :: j < cs.nextJid ==> RhsAt(s1.rt, j) == RhsAt(s.rt, j)
    requires PlanRan(p, plan, cs, s1, o, s2)
    ensures PlanRan(p, plan, cs, s, o, s2)
  {
    hide Clean, RowsOf, EndsInCollect;
  }

  // The own access path adds nothing to the inputs of the plan's joins.
  lemma {:induction false} ContentsKept(a: Rt, b: Rt, jid: nat, n: nat)
    requires forall j: nat :: j >= jid ==> RhsAt(b, j) == RhsAt(a, j)
    ensures Contents(b, jid, n) == Contents(a, jid, n)
    decreases n
  {
    hide RhsAt;
    if n > 0 {
      ContentsKept(a, b, jid + 1, n - 1);
    }
  }

  lemma LeavesAfter(p: Prog, cs: Cg, a: Config, b: Config, exit: Exit, s: State)
    requires Reaches(p, a, b) && Leaves(p, cs, b, exit, s)
    ensures Leaves(p, cs, a, exit, s)
  {
    hide Reaches;
    Trans(p, a, b, if exit == Raised then Thrown(s) else Run(cs.scanEnd, 0, s));
  }

  // The second input of the plan's join has run.
  ghost predicate InputRan(p: Prog, plan: Plan, cs: Cg, s: State, s2: State)
    requires HasJoin(plan.rest) && |Had(plan, cs, s)| == 1 + |Inputs(JoinRhs(plan.rest).rest)|
  {
    var q, cq := JoinRhs(plan.rest), JoinPoint(plan.rest, AfterScan(plan, cs));
    var had, left := Had(plan, cs, s)[1..], s.rt.fevList;
    var o := Running(p.w, q, left, had);
    && CompilePlan(q, cq).entry.Some? && PlanRan(p, q, cq, s, o, s2)
    && Leaves(p, AfterScan(q, cq), Run(CompilePlan(q, cq).entry.value, 0, s), o.exit, s2)
    && Had(q, cq, s2) == InputsAfter(p.w, q, left, had)
  }

  lemma OwnAfterInput(p: Prog, plan: Plan, cs: Cg, s: State, s2: State) returns (s1: State)
    requires RunReady(p, plan, cs) && HasJoin(plan.rest) && Sound(p.w, plan, s.rt.fevList, Had(plan, cs, s))
    requires |Had(plan, cs, s)| == 1 + |Inputs(JoinRhs(plan.rest).rest)| && InputRan(p, plan, cs, s, s2)
    ensures CompilePlan(plan, cs).entry.Some?
    ensures var o := Running(p.w, plan, s.rt.fevList, Had(plan, cs, s));
            && PlanRan(p, plan, cs, s, o, s1)
            && Leaves(p, AfterScan(plan, cs), Run(CompilePlan(plan, cs).entry.value, 0, s), o.exit, s1)
    ensures Had(plan, cs, s1) == InputsAfter(p.w, plan, s.rt.fevList, Had(plan, cs, s))
  {
    hide AfterScan, CompilePlan, Clean, Reaches, RunReady, PlanRan, Leaves, JoinReady, PushAll, ScanTuples, Contents,
         RhsAt, AllKinds, Sound, Entry, Running, InputsAfter, Inputs, JoinPoint, JoinRhs, HasJoin, PathTyped;
    var had, left := Had(plan, cs, s), s.rt.fevList;
    var q, cq, k := JoinRhs(plan.rest), JoinPoint(plan.rest, AfterScan(plan, cs)), Entry(p.w, plan, left, had);
    Unfolded(p.w, plan, left, had);
    InputReady(p, plan, cs);
    InputComplete(p, plan, cs, s, s2);
    var start := Run(CompilePlan(q, cq).entry.value, 0, s);
    ToOwnPath(p, plan, cs, start, Running(p.w, q, left, had[1..]).exit, s2);
    PathOfRun(p, plan, cs);
    s1 := RunPath(p, plan, cs, s2, k);
    RanAfter(p, plan, cs, s, s2, Running(p.w, plan, left, had), s1);
    LeavesAfter(p, AfterScan(plan, cs), start, Run(cs.nextBB, 0, s2), Running(p.w, plan, left, had).exit, s1);
    ContentsFirst(s2.rt, cs.nextJid, |Inputs(q.rest)|);
    ContentsKept(s2.rt, s1.rt, cs.nextJid, 1 + |Inputs(q.rest)|);
  }

  /** A plan runs the second input of its join first, to its end, then its own access path. What it appends, what
      it leaves in the list and what the join inputs hold are those of the run tuple by tuple. */
  lemma {:induction false} RunPlan(p: Prog, plan: Plan, cs: Cg, s: State) returns (s1: State)
    requires RunReady(p, plan, cs) && Clean(p.w.g, s.rt) && Sound(p.w, plan, s.rt.fevList, Had(plan, cs, s))
    ensures CompilePlan(plan, cs).entry.Some?
    ensures var o := Running(p.w, plan, s.rt.fevList, Had(plan, cs, s));
            && PlanRan(p, plan, cs, s, o, s1)
            && Leaves(p, AfterScan(plan, cs), Run(CompilePlan(plan, cs).entry.value, 0, s), o.exit, s1)
    ensures Had(plan, cs, s1) == InputsAfter(p.w, plan, s.rt.fevList, Had(plan, cs, s))
    decreases plan
  {
    hide AfterScan, CompilePlan, Clean, Reaches, RunReady, PlanRan, Leaves, JoinReady, PushAll, ScanTuples, Contents,
         RhsAt, AllKinds, Sound, Entry, Running, InputsAfter, Inputs, JoinPoint, JoinRhs, HasJoin, PathTyped;
    var had, left := Had(plan, cs, s), s.rt.fevList;
    var k := Entry(p.w, plan, left, had);
    Unfolded(p.w, plan, left, had);
    if HasJoin(plan.rest) {
      var q, cq := JoinRhs(plan.rest), JoinPoint(plan.rest, AfterScan(plan, cs));
      InputReady(p, plan, cs);
      RhsSmaller(plan.rest);
      ContentsFirst(s.rt, cs.nextJid, |Inputs(q.rest)|);
      var s2 := RunPlan(p, q, cq, s);
      s1 := OwnAfterInput(p, plan, cs, s, s2);
    } else {
      OwnEntry(p, plan, cs);
      NoInput(AfterScan(plan, cs), plan.rest, s.rt, k.input);
      PathOfRun(p, plan, cs);
      s1 := RunPath(p, plan, cs, s, k);
      ContentsKept(s.rt, s1.rt, cs.nextJid, 0);
    }
  }

  lemma NoInput(cs: Cg, r: Rest, rt: Rt, input: seq<Tuple>)
    requires !HasJoin(r)
    ensures JoinReady(cs, r, rt, input)
  {
  }

  // ----- whole queries -----

  /** A query the compiler is made for: the plan is well typed, and its arguments are in slots numbered from 1. */
  ghost predicate Runnable(w: World, plan: Plan) {
    GraphOk(w.g) && Typed(plan.rest, [0], true) && |w.args| <= MAX_ARGS && ArgsFrom(w.args, 1, PlanArgs(plan))
  }

  /** What it may rely on when it starts: the row buffers are empty, the description caches are those of this
      database, and the inputs of its joins can be counted and hold rows of the right kinds. */
  ghost predicate Startable(w: World, plan: Plan, rt: Rt) {
    Runnable(w, plan) && Clean(w.g, rt) && Sound(w, plan, rt.fevList, Held(plan, rt))
  }

  // What the inputs of the query's joins hold.
  ghost function Held(plan: Plan, rt: Rt): seq<seq<Tuple>> {
    Contents(rt, 0, |Inputs(plan.rest)|)
  }

  // Nothing is left over from queries before.
  ghost predicate Fresh(w: World, plan: Plan, rt: Rt) {
    Clean(w.g, rt) && rt.fevList == [] && AllEmpty(Held(plan, rt))
  }

  /** Plans that the emitted function gives their meaning: one Limit in each pipeline, and no traversal left half-way
      for a later one. */
  ghost predicate Faithful(w: World, plan: Plan) {
    Runnable(w, plan) && AllOneLimit(plan) && Settled(w, plan) && SmallInputs(w, plan)
  }

  lemma FreshStarts(w: World, plan: Plan, rt: Rt)
    requires Faithful(w, plan) && Fresh(w, plan, rt)
    ensures Startable(w, plan, rt)
  {
    hide Typed, Settled, Sound, SmallInputs, AllOneLimit, GraphOk, ArgsFrom, CacheOk;
    InputsMean(w, plan, true, Held(plan, rt));
  }

  function Program(w: World, plan: Plan): Prog {
    Prog(Compile(w.g.code, plan).blocks, w)
  }

  // The result set when the query is over.
  ghost function Answer(w: World, plan: Plan, before: seq<Row>): seq<Row> {
    before + RowsOf(w.g, Eval(w, plan).ts)
  }

  lemma StartReady(w: World, plan: Plan)
    requires Runnable(w, plan)
    ensures RunReady(Program(w, plan), plan, Codegen.Start(w.g.code)) && EndsInCollect(plan.rest)
  {
    hide CompilePlan, GraphOk, ArgsFrom, RestArgs, HasProject;
    TypedSingle(plan.rest, [0], true);
  }

  // The outcome of a run from a given state.
  ghost function RunFrom(w: World, plan: Plan, rt: Rt): Outcome {
    Running(w, plan, rt.fevList, Held(plan, rt))
  }

  // How a function ends: in an exception, or with the finish function called on the result set.
  ghost predicate Ends(w: World, plan: Plan, s: State, raised: bool, rows: seq<Row>, s1: State) {
    && Compile(w.g.code, plan).entry.Some?
    && var start := Run(Compile(w.g.code, plan).entry.value, 0, s);
       if raised then Reaches(Program(w, plan), start, Thrown(s1)) && s1.rt.rows == rows
       else Reaches(Program(w, plan), start, Done(s1)) && s1.rt.rows == w.finish(rows)
  }

  /** Whatever Limits a query has, and whatever earlier queries have left in the list and in the inputs of joins:
      the function emitted for it halts, having appended the rows of the run tuple by tuple; and it leaves
      in the list and in the inputs what that run leaves there. */
  lemma CompilerRuns(w: World, plan: Plan, s: State) returns (s1: State)
    requires Startable(w, plan, s.rt)
    ensures var o := RunFrom(w, plan, s.rt);
            && Ends(w, plan, s, o.exit == Raised, s.rt.rows + RowsOf(w.g, o.emit), s1)
            && (o.exit != Raised ==> Clean(w.g, s1.rt) && s1.rt.fevList == o.k.left)
    ensures Held(plan, s1.rt) == InputsAfter(w, plan, s.rt.fevList, Held(plan, s.rt))
  {
    hide Reaches, AfterScan, CompilePlan, RowsOf, CacheOk, Running, InputsAfter, Sound, Runnable, Contents, RunReady;
    var p, cs := Program(w, plan), Codegen.Start(w.g.code);
    StartReady(w, plan);
    var s0 := RunPlan(p, plan, cs, s);
    OnlyRows(w, s0.rt, w.finish(s0.rt.rows), |Inputs(plan.rest)|);
    if RunFrom(w, plan, s.rt).exit == Raised {
      s1 := s0;
    } else {
      var start := Run(CompilePlan(plan, cs).entry.value, 0, s);
      PathOfRun(p, plan, cs);
      s1 := RunExit(p, plan, cs, s0);
      Trans(p, start, Run(AfterScan(plan, cs).scanEnd, 0, s0), Done(s1));
    }
  }

  lemma PathOfRun(p: Prog, plan: Plan, cs: Cg)
    requires RunReady(p, plan, cs)
    ensures Bounded(cs) && Extends(CompilePlan(plan, cs).blocks, p.blocks) && PathTyped(p, plan, cs)
  {
  }

  // The finish function touches the result set only.
  lemma OnlyRows(w: World, rt: Rt, rows: seq<Row>, n: nat)
    ensures Contents(rt.(rows := rows), 0, n) == Contents(rt, 0, n)
    ensures Clean(w.g, rt.(rows := rows)) <==> Clean(w.g, rt)
  {
    assert forall j :: RhsAt(rt.(rows := rows), j) == RhsAt(rt, j);
    ContentsKept(rt, rt.(rows := rows), 0, n);
  }

  /** Compiler correctness. From its entry block the emitted function halts; it has appended exactly
      the rows of the plan's meaning, in order and multiplicity; it ends in an exception if and
      only if a projection on the way fails, and otherwise has called the finish function once. */
  lemma CompilerCorrect(w: World, plan: Plan, s: State) returns (s1: State)
    requires Faithful(w, plan) && Fresh(w, plan, s.rt)
    ensures Ends(w, plan, s, Eval(w, plan).threw, Answer(w, plan, s.rt.rows), s1)
  {
    hide Eval, Ends, Startable, RowsOf, Typed, Running, Settled, AllOneLimit, AllEmpty, SmallInputs, GraphOk,
         ArgsFrom, Clean;
    FreshStarts(w, plan, s.rt);
    RunsMean(w, plan, true, Held(plan, s.rt));
    s1 := CompilerRuns(w, plan, s);
  }

  /** The same, over every run: however many steps are taken, the function is never stuck, and if it has
      stopped it has stopped with this answer. */
  lemma EveryRun(w: World, plan: Plan, s: State, n: nat)
    requires Startable(w, plan, s.rt)
    ensures Compile(w.g.code, plan).entry.Some?
    ensures var c := Steps(Program(w, plan), Run(Compile(w.g.code, plan).entry.value, 0, s), n);
            && c != Stuck
            && (Faithful(w, plan) && Fresh(w, plan, s.rt) && c.Done? ==>
                  !Eval(w, plan).threw && c.s.rt.rows == w.finish(Answer(w, plan, s.rt.rows)))
            && (Faithful(w, plan) && Fresh(w, plan, s.rt) && c.Thrown? ==>
                  Eval(w, plan).threw && c.s.rt.rows == Answer(w, plan, s.rt.rows))
  {
    hide Eval, Compile, Startable, Answer, Faithful, Fresh, Reaches, RunFrom, RowsOf, InputsAfter, Held, Clean;
    var p := Program(w, plan);
    var s1 := CompilerRuns(w, plan, s);
    var start := Run(Compile(w.g.code, plan).entry.value, 0, s);
    var c := Steps(p, start, n);
    if !c.Run? {
      StepsReach(p, start, n);
      FinalUnique(p, start, c, if RunFrom(w, plan, s.rt).exit == Raised then Thrown(s1) else Done(s1));
      if Faithful(w, plan) && Fresh(w, plan, s.rt) {
        var s2 := CompilerCorrect(w, plan, s);
        FinalUnique(p, start, c, if Eval(w, plan).threw then Thrown(s2) else Done(s2));
      }
    }
  }

  lemma StepsReach(p: Prog, a: Config, n: nat)
    ensures Reaches(p, a, Steps(p, a, n))
  {
  }

  /** What a finished query leaves to the next. Nothing is left over from it if and only if none of its pipelines
      stopped half-way through a variable-hop traversal and the inputs of its joins were empty. */
  lemma RunAgainIff(w: World, plan: Plan, s: State) returns (s1: State)
    requires Faithful(w, plan) && Fresh(w, plan, s.rt) && !Eval(w, plan).threw
    ensures Ends(w, plan, s, false, Answer(w, plan, s.rt.rows), s1)
    ensures var inputs := Inputs(plan.rest);
            Fresh(w, plan, s1.rt)
            <==> !Halves(w, plan) && forall i :: 0 <= i < |inputs| ==> Eval(w, inputs[i]).ts == []
  {
    hide Eval, Ends, Startable, RowsOf, Typed, Running, Settled, AllOneLimit, SmallInputs, GraphOk, ArgsFrom, Clean,
         Halves, InputsAfter;
    FreshStarts(w, plan, s.rt);
    RunsMean(w, plan, true, Held(plan, s.rt));
    InputsMean(w, plan, true, Held(plan, s.rt));
    s1 := CompilerRuns(w, plan, s);
    assert forall i :: 0 <= i < |Inputs(plan.rest)| ==> Held(plan, s1.rt)[i] == Eval(w, Inputs(plan.rest)[i]).ts;
  }

  // ----- the assumptions can be met -----

  // A graph without nodes, in which every list and every set of properties is empty.
  function EmptyGraph(): Graph {
    var rship := RshipRec(0, 0, 0, UNKNOWN_ID, UNKNOWN_ID, UNKNOWN_ID, 0);
    Graph([], (p: nat) => p, (p: nat) => NodeRec(p, UNKNOWN_ID, UNKNOWN_ID, UNKNOWN_ID, 0), id => None, id => rship,
          id => PSet(UNKNOWN_ID, [PItem(0, 0), PItem(0, 0), PItem(0, 0)]), l => 0, id => Desc(map[]), id => Desc(map[]),
          id => "", id => "", (p, code, min, max) => [], (l, k, v) => None)
  }

  // All pairs of a node with one label and a node with another.
  function PairsPlan(): Plan {
    Plan(ScanLabel("a"), Join(Cross, Collect, Plan(ScanLabel("b"), End)))
  }

  // Whatever the traversals and the index find in it.
  lemma EmptyGraphOk(g: Graph)
    requires g == EmptyGraph().(varHop := g.varHop, index := g.index)
    ensures GraphOk(g)
  {
    forall p: nat, d: Dir
      ensures ListEnds(g, p, d)
    {
      assert Linked(g, d, First(g.node(p), d), []);
    }
    forall p: nat
      ensures SetsEnd(g, p)
    {
      assert LinkedSets(g, g.node(p).props, []);
    }
  }

  function PairsWorld(finish: seq<Row> -> seq<Row>): World {
    World(EmptyGraph(), [NoArg, LabelArg("a"), LabelArg("b")], finish)
  }

  lemma StartableHolds(rt: Rt, finish: seq<Row> -> seq<Row>)
    requires Fresh(PairsWorld(finish), PairsPlan(), rt)
    ensures Faithful(PairsWorld(finish), PairsPlan()) && Startable(PairsWorld(finish), PairsPlan(), rt)
  {
    hide GraphOk, Clean, AllEmpty;
    EmptyGraphOk(EmptyGraph());
    var w, rhs := PairsWorld(finish), Plan(ScanLabel("b"), End);
    assert Eval(w, rhs).ts == [];
    assert PlanArgs(PairsPlan()) == [LabelArg("a"), LabelArg("b")];
    assert RhsOk(rhs) && RhsTypes(rhs) == [0];
    assert Typed(Collect, [0] + [0], true) && Typed(PairsPlan().rest, [0], true);
    assert ArgsFrom(w.args, 1, PlanArgs(PairsPlan()));
    assert Inputs(End) == [] && JoinRhs(PairsPlan().rest) == rhs && Inputs(PairsPlan().rest) == [rhs];
    assert !HasVar(Collect) && Settled(w, rhs) && Settled(w, PairsPlan());
    FreshStarts(w, PairsPlan(), rt);
  }
}
