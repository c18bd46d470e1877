/** What it means that the emitted blocks carry out the rest of a pipeline: from the open block,
    with the registers holding a tuple, control comes back to `mainReturn` (or leaves for the end
    of the access path, or raises), having sunk exactly the tuples that pushing this one emits. */
module Simulation {
  import opened Storage
  import opened Ir
  import opened Runtime
  import opened Machine
  import opened Plan
  import opened Algebra
  import TupleAtATime
  import opened Codegen
  import opened Shape

  // ----- registers and tuples -----

  predicate Kind(ty: nat, v: Val) {
    (ty == 0 ==> v.NodeV?) && (ty == 1 ==> v.RshipV?)
  }

  predicate HasKinds(types: seq<nat>, t: Tuple) {
    |t| == |types| && forall i :: 0 <= i < |types| ==> Kind(types[i], t[i])
  }

  function TypesOf(regs: seq<QrValue>): seq<nat> {
    seq(|regs|, i requires 0 <= i < |regs| => regs[i].ty)
  }

  // What the content of a result cell stands for.
  predicate CellMeans(rt: Rt, x: Val, ty: nat, v: Val) {
    match ty
    case 2 => x == v && v.PropV? && v.v.PInt?
    case 4 => x.IntV? && x.n in rt.strs && v == PropV(PStr(rt.strs[x.n]))
    case 5 => x.IntV? && x.n in rt.times && v == PropV(PTime(rt.times[x.n]))
    case 6 => x.IntV? && x.n in rt.times && v == PropV(PTime(rt.times[x.n]))
    case 7 => x == v && v.IntV?
    case 8 => x.IntV? && x.n in rt.u64s && v == PropV(PU64(rt.u64s[x.n]))
    case _ => false
  }

  predicate MatchesOne(q: QrValue, v: Val, s: State) {
    match q.loc
    case InReg(r) => r in s.regs && s.regs[r] == v && q.ty in {0, 1} && Kind(q.ty, v)
    case InCell(c) => c in s.cells && CellMeans(s.rt, s.cells[c], q.ty, v)
  }

  ghost predicate Matches(regs: seq<QrValue>, t: Tuple, s: State) {
    |regs| == |t| && forall i :: 0 <= i < |regs| ==> MatchesOne(regs[i], t[i], s)
  }

  // ----- what the rest of a pipeline may overwrite -----

  predicate Clobbers(r: Rest, k: CellKind) {
    if r.Collect? || r.End? then false
    else
      || (match r
          case Foreach(_, _, _, _, _) => k == LhsAlloca || k == RhsAlloca
          case Filter(_, _, _, _) => k == PlistId || k == LoopCnt || k == CurPset
          case Project(_, _) => k.Pv?
          case Limit(_, _) => k == ResCounter
          case Join(_, _, _) => k in {CurIdx, MaxIdx, Dangling, CrossJoinIdx, Ra, Ridx}
          case _ => false)
      || Clobbers(Tail(r), k)
  }

  predicate SameTables(a: Rt, b: Rt) {
    a.ctr == b.ctr && a.strs == b.strs && a.u64s == b.u64s && a.times == b.times
  }

  ghost predicate Frame(cs: Cg, r: Rest, s: State, s1: State) {
    && (forall i :: i in s.regs && i < cs.nextReg ==> i in s1.regs && s1.regs[i] == s.regs[i])
    && (forall c :: c in s.cells && !(c.pipe == cs.pipe && Clobbers(r, c.kind)) ==>
          c in s1.cells && s1.cells[c] == s.cells[c])
    && s1.rt.iters == s.rt.iters
    && (!HasVar(r) ==> s1.rt.fevList == s.rt.fevList && s1.rt.fevPos == s.rt.fevPos)
    && (!HasProject(r) ==> SameTables(s.rt, s1.rt))
  }

  // The tuples have gone to the result set, or to the input of the join this pipeline feeds.
  ghost predicate Sunk(g: Graph, cs: Cg, r: Rest, a: Rt, b: Rt, emit: seq<Tuple>) {
    && b.rows == (if EndsInCollect(r) then a.rows + RowsOf(g, emit) else a.rows)
    && forall j :: RhsAt(b, j) == if !EndsInCollect(r) && j == FrontJid(cs) then RhsAt(a, j) + emit else RhsAt(a, j)
  }

  // What holds of cells and buffers whenever control is between operators.
  ghost predicate Calm(g: Graph, pipe: nat, s: State, k: Flow) {
    && Cell(pipe, ResCounter) in s.cells && s.cells[Cell(pipe, ResCounter)] == IntV(k.count)
    && s.rt.fevList == k.left
    && Cell(pipe, RhsAlloca) in s.cells
    && s.cells[Cell(pipe, RhsAlloca)] in {IntV(UNKNOWN_ID), IntV(INT64_MAX)}
    && Cell(pipe, MaxCnt) in s.cells && s.cells[Cell(pipe, MaxCnt)] == IntV(MAX_PITEM_CNT)
    && s.rt.tp == [] && s.rt.mat == []
    && CacheOk(g, s.rt)
  }

  // The effect of pushing a tuple, apart from where control ends up.
  ghost predicate Ran(p: Prog, cs: Cg, r: Rest, s: State, o: Outcome, s1: State) {
    && (o.exit != Raised ==> Calm(p.w.g, cs.pipe, s1, o.k))
    && Frame(cs, r, s, s1)
    && Sunk(p.w.g, cs, r, s.rt, s1.rt, o.emit)
  }

  ghost predicate Goes(p: Prog, cs: Cg, from_: Config, exit: Exit, s1: State) {
    match exit
    case Back => Reaches(p, from_, Run(cs.mainReturn, 0, s1))
    case Limited => Reaches(p, from_, Run(cs.scanEnd, 0, s1))
    case Raised => Reaches(p, from_, Thrown(s1))
  }

  // ----- the compile-time side -----

  // A cell in the layout is not overwritten by the operators still to come.
  predicate LocOk(cs: Cg, r: Rest, q: QrValue) {
    match q.loc
    case InReg(x) => x < cs.nextReg && q.ty in {0, 1}
    case InCell(c) =>
      q.ty !in {0, 1} && c.pipe == cs.pipe && !Clobbers(r, c.kind)
      && ((c.kind.Pv? && !HasProject(r)) || (c.kind == Dangling && q.ty == 7))
  }

  predicate LayoutOk(cs: Cg, r: Rest) {
    forall i :: 0 <= i < |cs.regs| ==> LocOk(cs, r, cs.regs[i])
  }

  ghost predicate Ready(p: Prog, cs: Cg, r: Rest) {
    && GraphOk(p.w.g) && |p.w.args| <= MAX_ARGS && cs.dict == p.w.g.code
    && Bounded(cs) && IsOpen(cs)
    && Extends(CompileRest(r, cs).blocks, p.blocks)
    && Typed(r, TypesOf(cs.regs), EndsInCollect(r))
    && LayoutOk(cs, r)
    && (HasProject(r) ==> cs.projectKeys == PipelineKeys(r))
    && ArgsFrom(p.w.args, cs.opId, RestArgs(r))
    && (!EndsInCollect(r) ==> cs.jids != [] && cs.jids[0] < cs.nextJid)
  }

  // The input of the pipeline's join is complete.
  ghost predicate JoinReady(cs: Cg, r: Rest, rt: Rt, input: seq<Tuple>) {
    HasJoin(r) ==>
      var j, rows, more := FirstJoin(r), RhsAt(rt, cs.nextJid), RhsAt(rt, cs.nextJid + 1);
      && Readable(RhsTypes(j.rhs), rows)
      && if j.lhs.Join? then Readable(RhsTypes(j.lhs.rhs), more) && input == FirstWith(rows, more) else input == rows
  }

  // Rows that can be counted, of the kinds that are read.
  ghost predicate Readable(types: seq<nat>, rows: seq<Tuple>) {
    |rows| < MAX_ROWS && forall i :: 0 <= i < |rows| ==> HasKinds(types, rows[i])
  }

  // ----- the simulation -----

  function Entering(cs: Cg, s: State): Config {
    Run(cs.prevBB, Len(Prev(cs).code), s)
  }

  ghost predicate Pre(p: Prog, cs: Cg, r: Rest, s: State, t: Tuple, k: Flow) {
    && Matches(cs.regs, t, s)
    && Calm(p.w.g, cs.pipe, s, k)
    && JoinReady(cs, r, s.rt, k.input)
  }

  ghost predicate Result(p: Prog, cs: Cg, r: Rest, s: State, from_: Config, o: Outcome, s1: State) {
    Ran(p, cs, r, s, o, s1) && Goes(p, cs, from_, o.exit, s1)
  }

  ghost predicate Post(p: Prog, cs: Cg, r: Rest, s: State, o: Outcome, s1: State) {
    Result(p, cs, r, s, Entering(cs, s), o, s1)
  }

  ghost predicate Simulates(p: Prog, cs: Cg, r: Rest) {
    forall s, t, k :: Pre(p, cs, r, s, t, k) ==> exists s1 :: Post(p, cs, r, s, Push(p.w, r, t, k), s1)
  }

  lemma Simulate(p: Prog, cs: Cg, r: Rest, s: State, t: Tuple, k: Flow) returns (s1: State)
    requires Simulates(p, cs, r) && Pre(p, cs, r, s, t, k)
    ensures Post(p, cs, r, s, Push(p.w, r, t, k), s1)
  {
    s1 :| Post(p, cs, r, s, Push(p.w, r, t, k), s1);
  }

  // ----- putting effects together -----

  lemma RowsOfAppend(g: Graph, a: seq<Tuple>, b: seq<Tuple>)
    ensures RowsOf(g, a + b) == RowsOf(g, a) + RowsOf(g, b)
  {
  }

  function Both(a: Outcome, b: Outcome): Outcome {
    if a.exit != Back then a else Outcome(a.emit + b.emit, b.k, b.exit)
  }

  // Steps that emit nothing and keep the frame.
  function Nothing(k: Flow): Outcome {
    Outcome([], k, Back)
  }

  lemma SunkSeq(g: Graph, cs: Cg, r: Rest, a: Rt, b: Rt, c: Rt, e: seq<Tuple>, f: seq<Tuple>)
    requires Sunk(g, cs, r, a, b, e) && Sunk(g, cs, r, b, c, f)
    ensures Sunk(g, cs, r, a, c, e + f)
  {
    hide RowsOf, FrontJid, EndsInCollect;
    RowsOfAppend(g, e, f);
  }

  lemma FrameSeq(cs: Cg, r: Rest, a: State, b: State, c: State)
    requires Frame(cs, r, a, b) && Frame(cs, r, b, c)
    ensures Frame(cs, r, a, c)
  {
    hide HasVar, HasProject, Clobbers;
  }

  lemma RanSeq(p: Prog, cs: Cg, r: Rest, s: State, a: Outcome, s1: State, b: Outcome, s2: State)
    requires Ran(p, cs, r, s, a, s1) && Ran(p, cs, r, s1, b, s2) && a.exit == Back
    ensures Ran(p, cs, r, s, Both(a, b), s2)
    ensures a.emit == [] ==> Both(a, b) == b
  {
    hide Calm, Frame, Sunk;
    SunkSeq(p.w.g, cs, r, s.rt, s1.rt, s2.rt, a.emit, b.emit);
    FrameSeq(cs, r, s, s1, s2);
    assert a.emit == [] ==> a.emit + b.emit == b.emit;
  }

  lemma GoesFrom(p: Prog, cs: Cg, a: Config, b: Config, exit: Exit, s1: State)
    requires Reaches(p, a, b) && Goes(p, cs, b, exit, s1)
    ensures Goes(p, cs, a, exit, s1)
  {
    hide Reaches;
    match exit
    case Back => Trans(p, a, b, Run(cs.mainReturn, 0, s1));
    case Limited => Trans(p, a, b, Run(cs.scanEnd, 0, s1));
    case Raised => Trans(p, a, b, Thrown(s1));
  }

  // A result after steps that came back with an effect of their own.
  lemma ResultAfter(p: Prog, cs: Cg, r: Rest, s: State, from_: Config, a: Outcome, s1: State, mid: Config, b: Outcome,
        s2: State)
    requires Ran(p, cs, r, s, a, s1) && a.exit == Back && Reaches(p, from_, mid)
    requires Result(p, cs, r, s1, mid, b, s2)
    ensures Result(p, cs, r, s, from_, Both(a, b), s2)
    ensures a.emit == [] ==> Both(a, b) == b
  {
    hide Reaches;
    RanSeq(p, cs, r, s, a, s1, b, s2);
    GoesFrom(p, cs, from_, mid, b.exit, s2);
  }

  lemma SunkWiden(g: Graph, cs: Cg, r: Rest, cs1: Cg, a: Rt, b: Rt, emit: seq<Tuple>)
    requires !EndsPipeline(r) && Continues(r, cs, cs1) && (!EndsInCollect(r) ==> cs.jids != [])
    requires Sunk(g, cs1, Tail(r), a, b, emit)
    ensures Sunk(g, cs, r, a, b, emit)
  {
    hide Follows, IsOpen, RowsOf;
  }

  // The effect of the next operators is an effect of this one and them.
  lemma RanWiden(p: Prog, cs: Cg, r: Rest, cs1: Cg, s: State, o: Outcome, s1: State)
    requires !EndsPipeline(r) && Continues(r, cs, cs1)
    requires !EndsInCollect(r) ==> cs.jids != []
    requires Ran(p, cs1, Tail(r), s, o, s1)
    ensures Ran(p, cs, r, s, o, s1)
  {
    hide Sunk, Calm, Bounded, Extends, IsOpen, EndsInCollect;
    SunkWiden(p.w.g, cs, r, cs1, s.rt, s1.rt, o.emit);
  }

  // Nothing but registers of the operators from here on, and cells they may overwrite, has changed.
  lemma RanQuiet(p: Prog, cs: Cg, r: Rest, s: State, k: Flow, s1: State)
    requires Calm(p.w.g, cs.pipe, s1, k) && Frame(cs, r, s, s1)
    requires s1.rt.rows == s.rt.rows && s1.rt.rhs == s.rt.rhs
    ensures Ran(p, cs, r, s, Nothing(k), s1)
  {
    assert s.rt.rows + RowsOf(p.w.g, []) == s.rt.rows;
    assert forall j :: RhsAt(s.rt, j) + [] == RhsAt(s.rt, j);
  }

  // If the next operators do not come back, neither does this one.
  lemma ResultAway(p: Prog, cs: Cg, r: Rest, cs1: Cg, s: State, from_: Config, o: Outcome, s1: State)
    requires !EndsPipeline(r) && Continues(r, cs, cs1)
    requires !EndsInCollect(r) ==> cs.jids != []
    requires Result(p, cs1, Tail(r), s, from_, o, s1) && o.exit != Back
    ensures Result(p, cs, r, s, from_, o, s1)
  {
    hide Reaches;
    RanWiden(p, cs, r, cs1, s, o, s1);
  }

  // The registers of a tuple survive whatever keeps the frame.
  lemma MatchesKept(cs: Cg, r: Rest, s: State, s1: State, t: Tuple)
    requires LayoutOk(cs, r) && Matches(cs.regs, t, s) && Frame(cs, r, s, s1)
    ensures Matches(cs.regs, t, s1)
  {
    forall i | 0 <= i < |cs.regs|
      ensures MatchesOne(cs.regs[i], t[i], s1)
    {
      assert MatchesOne(cs.regs[i], t[i], s);
    }
  }

  lemma JoinKept(p: Prog, cs: Cg, r: Rest, s: State, o: Outcome, s1: State, input: seq<Tuple>)
    requires !EndsInCollect(r) ==> cs.jids != [] && cs.jids[0] < cs.nextJid
    requires JoinReady(cs, r, s.rt, input) && Ran(p, cs, r, s, o, s1)
    ensures JoinReady(cs, r, s1.rt, input)
  {
  }

  // ----- running emitted blocks -----

  predicate CellHas(s: State, c: Cell, v: Val) {
    c in s.cells && s.cells[c] == v
  }

  predicate RegHas(s: State, r: Reg, v: Val) {
    r in s.regs && s.regs[r] == v
  }

  predicate Has(p: Prog, bb: BlockId, b: Block) {
    bb in p.blocks && p.blocks[bb] == b
  }

  ghost predicate RegsKept(s: State, s1: State, bound: nat) {
    forall i :: i in s.regs && i < bound ==> i in s1.regs && s1.regs[i] == s.regs[i]
  }

  // Registers from `bound` on may have been written, nothing else.
  ghost predicate Scratch(s: State, s1: State, bound: nat) {
    s1.cells == s.cells && s1.rt == s.rt && RegsKept(s, s1, bound)
  }

  /** The head of while_loop_condition: the body is entered exactly while the first cell is below
      the second, unsigned. */
  lemma RunWhile(p: Prog, bb: BlockId, lhs: Cell, rhs: Cell, body: BlockId, end: BlockId, s: State)
    requires Has(p, bb, WhileHead(lhs, rhs, body, end)) && CellVal(s, lhs).IntV? && CellVal(s, rhs).IntV?
    ensures Reaches(p, Run(bb, 0, s), Run(if CellVal(s, lhs).n < CellVal(s, rhs).n then body else end, 0, s))
  {
    hide Reaches, Exec1;
    RunBlock(p, bb, s);
  }

  lemma RunGoto(p: Prog, bb: BlockId, to: BlockId, s: State)
    requires Has(p, bb, Goto(to))
    ensures Reaches(p, Run(bb, 0, s), Run(to, 0, s))
  {
    hide Reaches;
    RunBlock(p, bb, s);
  }

  // Leaving the open block, which the next visit closes with a branch to `entry`.
  lemma Leave(p: Prog, cs: Cg, entry: BlockId, s: State)
    requires cs.prevBB in p.blocks && p.blocks[cs.prevBB] == Seal(Prev(cs), entry)
    ensures Reaches(p, Entering(cs, s), Run(entry, 0, s))
  {
    hide Reaches;
    RunTerm(p, cs.prevBB, s);
  }

  // An operator finds its own argument in its slot.
  lemma ReadArg(p: Prog, cs: Cg, r: Rest)
    requires ArgsFrom(p.w.args, cs.opId, RestArgs(r)) && |p.w.args| <= MAX_ARGS
    requires OwnArgs(r) != [] && OwnArgs(r)[0] != NoArg
    ensures ArgAt(p.w, cs.opId) == OwnArgs(r)[0]
  {
    ArgsSplit(p.w.args, cs.opId, OwnArgs(r), RestArgs(r.next));
  }

  predicate Holds(own: Blocks, b: BlockId, blk: Block) {
    b in own && own[b] == blk
  }

  // The blocks a visit added are in the program, and the block that was open now leads to them.
  lemma OwnEmitted(p: Prog, cs: Cg, r: Rest, own: Blocks, m: nat)
    requires Bounded(cs) && IsOpen(cs) && Fresh(own, cs.nextBB, m)
    requires Extends(CompileRest(r, cs).blocks, p.blocks)
    requires After(r, cs).blocks == Grow(cs, cs.nextBB, own)
    ensures Has(p, cs.prevBB, Seal(Prev(cs), cs.nextBB))
    ensures forall b, blk {:trigger Holds(own, b, blk)} :: Holds(own, b, blk) && blk.term.Some? ==> Has(p, b, blk)
    ensures forall b, blk {:trigger Holds(own, b, blk)} ::
              Holds(own, b, blk) ==> b in p.blocks && p.blocks[b].code == blk.code
    ensures forall b, blk {:trigger Holds(own, b, blk)} :: Holds(own, b, blk) ==> Holds(After(r, cs).blocks, b, blk)
  {
    AfterInside(r, cs, p.blocks);
    hide After, CompileRest;
    GrowKeeps(cs, own, if cs.nextBB <= m then m else cs.nextBB);
  }

  // What holds of the current tuple at any point of an operator's own code.
  ghost predicate Holding(p: Prog, cs: Cg, r: Rest, s: State, t: Tuple, k: Flow) {
    Matches(cs.regs, t, s) && Calm(p.w.g, cs.pipe, s, k) && JoinReady(cs, r, s.rt, k.input)
  }

  // The visit's results that the operator's proof needs.
  ghost predicate Visited(cs: Cg, r: Rest, cs1: Cg) {
    && !EndsPipeline(r) && Continues(r, cs, cs1) && LayoutOk(cs, r)
    && (!EndsInCollect(r) ==> cs.jids != [] && cs.jids[0] < cs.nextJid)
  }

  /** The operators below take a tuple and come back with this operator's own tuple and registers
      intact, or leave for good. */
  lemma Below(p: Prog, cs: Cg, r: Rest, cs1: Cg, s: State, t: Tuple, k: Flow, t1: Tuple, k1: Flow) returns (s1: State)
    requires Visited(cs, r, cs1) && Simulates(p, cs1, Tail(r))
    requires Holding(p, cs, r, s, t, k) && Pre(p, cs1, Tail(r), s, t1, k1) && k1.input == k.input
    ensures var o := Push(p.w, Tail(r), t1, k1);
            && Ran(p, cs, r, s, o, s1)
            && RegsKept(s, s1, cs1.nextReg)
            && (o.exit == Back ==>
                  && Reaches(p, Entering(cs1, s), Run(cs1.mainReturn, 0, s1))
                  && Holding(p, cs, r, s1, t, o.k))
            && (!HasVar(Tail(r)) ==> s1.rt.fevList == s.rt.fevList && s1.rt.fevPos == s.rt.fevPos)
            && (forall c :: c in s.cells && !(c.pipe == cs.pipe && Clobbers(Tail(r), c.kind)) ==>
                  c in s1.cells && s1.cells[c] == s.cells[c])
            && (o.exit != Back ==> Result(p, cs, r, s, Entering(cs1, s), o, s1))
  {
    hide Reaches, Push, Entering;
    s1 := Simulate(p, cs1, Tail(r), s, t1, k1);
    var o := Push(p.w, Tail(r), t1, k1);
    TupleAtATime.InputStays(p.w, Tail(r), t1, k1);
    RanWiden(p, cs, r, cs1, s, o, s1);
    if o.exit == Back {
      MatchesKept(cs, r, s, s1, t);
      JoinKept(p, cs, r, s, o, s1, k.input);
    } else {
      ResultAway(p, cs, r, cs1, s, Entering(cs1, s), o, s1);
    }
  }

  // An operator's own steps that only write registers of its own, or cells it may overwrite.
  lemma Own(p: Prog, cs: Cg, r: Rest, s: State, t: Tuple, k: Flow, s1: State)
    requires LayoutOk(cs, r) && Holding(p, cs, r, s, t, k) && Frame(cs, r, s, s1)
    requires s1.rt.rows == s.rt.rows && s1.rt.rhs == s.rt.rhs && SameTables(s.rt, s1.rt)
    requires Calm(p.w.g, cs.pipe, s1, k)
    ensures Ran(p, cs, r, s, Nothing(k), s1) && Holding(p, cs, r, s1, t, k)
  {
    hide Reaches;
    RanQuiet(p, cs, r, s, k, s1);
    MatchesKept(cs, r, s, s1, t);
  }

  lemma OwnScratch(p: Prog, cs: Cg, r: Rest, s: State, t: Tuple, k: Flow, s1: State)
    requires LayoutOk(cs, r) && Holding(p, cs, r, s, t, k) && Scratch(s, s1, cs.nextReg)
    ensures Ran(p, cs, r, s, Nothing(k), s1) && Holding(p, cs, r, s1, t, k)
  {
    Own(p, cs, r, s, t, k, s1);
  }

  // An operator that hands a tuple to the operators below at most once has their result.
  lemma PassOn(p: Prog, cs: Cg, r: Rest, cs1: Cg, s: State, t: Tuple, k: Flow, t1: Tuple, k1: Flow) returns (s1: State)
    requires Visited(cs, r, cs1) && Simulates(p, cs1, Tail(r)) && !r.Foreach? && cs1.mainReturn == cs.mainReturn
    requires Holding(p, cs, r, s, t, k) && Pre(p, cs1, Tail(r), s, t1, k1) && k1.input == k.input
    ensures Result(p, cs, r, s, Entering(cs1, s), Push(p.w, Tail(r), t1, k1), s1)
  {
    hide Reaches, Push, Entering, Ran, Holding, Pre;
    s1 := Below(p, cs, r, cs1, s, t, k, t1, k1);
  }

  // A tuple is dropped: control goes back at once.
  lemma Drop(p: Prog, cs: Cg, r: Rest, s: State, t: Tuple, k: Flow, bb: BlockId)
    requires Has(p, bb, Goto(cs.mainReturn)) && Holding(p, cs, r, s, t, k)
    ensures Result(p, cs, r, s, Run(bb, 0, s), Nothing(k), s)
  {
    hide Reaches;
    RunGoto(p, bb, cs.mainReturn, s);
    RanQuiet(p, cs, r, s, k, s);
  }

  // The open block leads to the operator's entry block.
  lemma Enters(p: Prog, cs: Cg, r: Rest, s: State, k: Flow, entry: BlockId, o: Outcome, s1: State)
    requires Has(p, cs.prevBB, Seal(Prev(cs), entry)) && Result(p, cs, r, s, Run(entry, 0, s), o, s1)
    ensures Result(p, cs, r, s, Entering(cs, s), o, s1)
  {
    hide Reaches, Ran;
    Leave(p, cs, entry, s);
    GoesFrom(p, cs, Entering(cs, s), Run(entry, 0, s), o.exit, s1);
  }

  // A leg of an operator's own code: it leads from one block to another, unless the operators below leave.
  ghost predicate Leg(p: Prog, cs: Cg, r: Rest, s: State, from_: BlockId, o: Outcome, to: BlockId, s1: State) {
    && Ran(p, cs, r, s, o, s1)
    && (o.exit == Back ==> Reaches(p, Run(from_, 0, s), Run(to, 0, s1)))
    && (o.exit != Back ==> Result(p, cs, r, s, Run(from_, 0, s), o, s1))
  }

  lemma LegSeq(p: Prog, cs: Cg, r: Rest, s: State, from_: BlockId, a: Outcome, mid: BlockId, s1: State, b: Outcome,
        to: BlockId, s2: State)
    requires Leg(p, cs, r, s, from_, a, mid, s1)
    requires if a.exit == Back then Leg(p, cs, r, s1, mid, b, to, s2) else s2 == s1
    ensures Leg(p, cs, r, s, from_, Both(a, b), to, s2)
    ensures a.exit == Back && a.emit == [] ==> Both(a, b) == b
  {
    hide Reaches, Ran, Result;
    if a.exit == Back {
      if b.exit == Back {
        RanSeq(p, cs, r, s, a, s1, b, s2);
        Trans(p, Run(from_, 0, s), Run(mid, 0, s1), Run(to, 0, s2));
        assert a.emit == [] ==> a.emit + b.emit == b.emit;
      } else {
        LegAway(p, cs, r, s1, mid, b, to, s2);
        ResultAfter(p, cs, r, s, Run(from_, 0, s), a, s1, Run(mid, 0, s1), b, s2);
        ResultRan(p, cs, r, s, Run(from_, 0, s), Both(a, b), s2);
      }
    }
  }

  lemma LegAway(p: Prog, cs: Cg, r: Rest, s: State, from_: BlockId, o: Outcome, to: BlockId, s1: State)
    requires Leg(p, cs, r, s, from_, o, to, s1) && o.exit != Back
    ensures Result(p, cs, r, s, Run(from_, 0, s), o, s1)
  {
  }

  lemma ResultRan(p: Prog, cs: Cg, r: Rest, s: State, from_: Config, o: Outcome, s1: State)
    requires Result(p, cs, r, s, from_, o, s1)
    ensures Ran(p, cs, r, s, o, s1)
  {
  }

  // A leg followed by the rest of the way.
  lemma LegResult(p: Prog, cs: Cg, r: Rest, s: State, from_: BlockId, a: Outcome, mid: BlockId, s1: State, b: Outcome,
        s2: State)
    requires Leg(p, cs, r, s, from_, a, mid, s1)
    requires if a.exit == Back then Result(p, cs, r, s1, Run(mid, 0, s1), b, s2) else s2 == s1
    ensures Result(p, cs, r, s, Run(from_, 0, s), Both(a, b), s2)
  {
    hide Reaches, Ran, Result;
    if a.exit == Back {
      ResultAfter(p, cs, r, s, Run(from_, 0, s), a, s1, Run(mid, 0, s1), b, s2);
    }
  }
}
