/** The control-flow graph under construction: what a visit adds to it, and that nothing already
    emitted changes except that the open block is closed. */
module Shape {
  import opened Storage
  import opened Ir
  import opened Plan
  import opened Codegen

  type Blocks = map<BlockId, Block>

  predicate Bounded(cs: Cg) {
    forall b :: b in cs.blocks ==> b < cs.nextBB
  }

  predicate IsOpen(cs: Cg) {
    cs.prevBB in cs.blocks && cs.blocks[cs.prevBB].term.None?
  }

  // Every block of `a` is in `b`, with the same code, and with the same terminator if it had one.
  ghost predicate Extends(a: Blocks, b: Blocks) {
    forall i :: i in a ==> i in b && b[i].code == a[i].code && (a[i].term.Some? ==> b[i].term == a[i].term)
  }

  lemma ExtendsTrans(a: Blocks, b: Blocks, c: Blocks)
    requires Extends(a, b) && Extends(b, c)
    ensures Extends(a, c)
  {
  }

  predicate EndsPipeline(r: Rest) {
    r.Collect? || r.End?
  }

  // What every visit keeps of the visitor's state, and what it adds to the function.
  ghost predicate Follows(cs: Cg, cs1: Cg) {
    && Bounded(cs1) && Extends(cs.blocks, cs1.blocks)
    && cs1.dict == cs.dict && cs1.pipe == cs.pipe && cs1.entry == cs.entry && cs1.projectKeys == cs.projectKeys
    && cs1.scanEnd == cs.scanEnd && cs1.projectString == cs.projectString
    && cs.nextReg <= cs1.nextReg && cs.nextBB <= cs1.nextBB
  }

  // An operator inside a pipeline leaves one block open, another than before (a sort leaves all as it is).
  ghost predicate Continues(r: Rest, cs: Cg, cs1: Cg) {
    && Follows(cs, cs1) && IsOpen(cs1)
    && (!r.Sort? ==> cs.prevBB in cs1.blocks && cs1.blocks[cs.prevBB].term.Some?)
    && (r.Sort? ==> cs1.prevBB == cs.prevBB)
    && cs1.opId == cs.opId + Width(r)
    && cs1.nextJid == (if r.Join? then cs.nextJid + 1 else cs.nextJid)
    && cs1.jids == (if r.Join? then cs.jids + [cs.nextJid] else cs.jids)
  }

  // A visit's own blocks are new.
  predicate Fresh(own: Blocks, n: nat, m: nat) {
    forall b :: b in own ==> n <= b < m
  }

  lemma GrowKeeps(cs: Cg, own: Blocks, m: nat)
    requires Bounded(cs) && IsOpen(cs) && Fresh(own, cs.nextBB, m) && cs.nextBB <= m
    ensures Extends(cs.blocks, Grow(cs, cs.nextBB, own))
    ensures forall b :: b in Grow(cs, cs.nextBB, own) ==> b < m
    ensures cs.prevBB in Grow(cs, cs.nextBB, own) && Grow(cs, cs.nextBB, own)[cs.prevBB] == Seal(Prev(cs), cs.nextBB)
    ensures forall b :: b in own ==> b in Grow(cs, cs.nextBB, own) && Grow(cs, cs.nextBB, own)[b] == own[b]
  {
  }

  // A visit that grows the function and leaves one of its own blocks open.
  lemma GrowContinues(r: Rest, cs: Cg, cs1: Cg, own: Blocks)
    requires Bounded(cs) && IsOpen(cs) && Fresh(own, cs.nextBB, cs1.nextBB) && cs.nextBB <= cs1.nextBB && !r.Sort?
    requires cs1.prevBB in own && own[cs1.prevBB].term.None?
    requires cs1 == cs.(blocks := Grow(cs, cs.nextBB, own), nextBB := cs1.nextBB, nextReg := cs1.nextReg,
                        prevBB := cs1.prevBB, mainReturn := cs1.mainReturn, regs := cs1.regs,
                        opId := cs.opId + Width(r), nextJid := cs1.nextJid, jids := cs1.jids)
    requires cs1.nextJid == (if r.Join? then cs.nextJid + 1 else cs.nextJid)
    requires cs1.jids == (if r.Join? then cs.jids + [cs.nextJid] else cs.jids)
    requires cs.nextReg <= cs1.nextReg
    ensures Continues(r, cs, cs1)
  {
    GrowKeeps(cs, own, cs1.nextBB);
  }

  predicate OpenAt(own: Blocks, b: BlockId) {
    b in own && own[b] == EMPTY
  }

  lemma ForeachFresh(cs: Cg, d: Dir, min: int, max: int)
    ensures Fresh(ForeachBlocks(cs, d), cs.nextBB, cs.nextBB + 10)
    ensures Fresh(VariableBlocks(cs, d, min, max), cs.nextBB, cs.nextBB + 7)
    ensures OpenAt(ForeachBlocks(cs, d), cs.nextBB + 3) && OpenAt(VariableBlocks(cs, d, min, max), cs.nextBB + 3)
  {
  }

  lemma ExpandFresh(cs: Cg, out: bool, lbl: string)
    ensures Fresh(ExpandBlocks(cs, out, lbl), cs.nextBB, cs.nextBB + 4)
    ensures OpenAt(ExpandBlocks(cs, out, lbl), cs.nextBB + 1)
  {
  }

  lemma SearchFresh(cs: Cg, code: nat)
    ensures Fresh(SearchBlocks(cs, code), cs.nextBB + 6, cs.nextBB + 17)
  {
  }

  lemma FrameFresh(cs: Cg, qr: nat)
    ensures Fresh(FilterFrame(cs, qr), cs.nextBB, cs.nextBB + 19)
    ensures OpenAt(FilterFrame(cs, qr), cs.nextBB + 1)
  {
  }

  lemma FilterFresh(cs: Cg, qr: nat, key: string)
    ensures Fresh(FilterBlocks(cs, qr, key), cs.nextBB, cs.nextBB + 19)
    ensures OpenAt(FilterBlocks(cs, qr, key), cs.nextBB + 1)
  {
    hide SearchBlocks, FilterFrame;
    SearchFresh(cs, cs.dict(key));
    FrameFresh(cs, qr);
  }

  lemma LoopFresh(cs: Cg, kind: JoinKind)
    ensures Fresh(JoinLoopBlocks(cs, kind), cs.nextBB, cs.nextBB + 12)
            && OpenAt(JoinLoopBlocks(cs, kind), cs.nextBB + 7)
  {
    hide JoinEntry, JoinIncr, WhileHead, Goto;
  }

  lemma InnerFresh(cs: Cg, types: seq<nat>, i: nat, j: nat)
    ensures Fresh(LeftOuterBlocks(cs, types, i, j), cs.nextBB, cs.nextBB + 15)
            && cs.nextBB + 7 !in LeftOuterBlocks(cs, types, i, j)
  {
    hide LeftEntry, LeftNext, LeftBody, WhileHead, Goto, ConcatCode;
  }

  lemma JoinFresh(cs: Cg, kind: JoinKind, types: seq<nat>)
    ensures Fresh(JoinBlocks(cs, kind, types), cs.nextBB, cs.nextBB + (if kind == Cross then 12 else 15))
    ensures OpenAt(JoinBlocks(cs, kind, types), cs.nextBB + 7)
  {
    hide JoinLoopBlocks, LeftOuterBlocks, CrossConcat;
    LoopFresh(cs, kind);
    if kind.LeftOuter? {
      InnerFresh(cs, types, kind.lhsPos, kind.rhsPos);
    }
  }

  lemma ForeachKeeps(r: Rest, cs: Cg)
    requires Bounded(cs) && IsOpen(cs) && r.Foreach?
    ensures Continues(r, cs, After(r, cs))
  {
    ForeachFresh(cs, r.dir, r.min, r.max);
    GrowContinues(r, cs, After(r, cs), if IsVariable(r) then VariableBlocks(cs, r.dir, r.min,
                                                                            r.max) else ForeachBlocks(cs, r.dir));
  }

  lemma ExpandKeeps(r: Rest, cs: Cg)
    requires Bounded(cs) && IsOpen(cs) && r.Expand?
    ensures Continues(r, cs, After(r, cs))
  {
    ExpandFresh(cs, r.out, r.lbl);
    GrowContinues(r, cs, After(r, cs), ExpandBlocks(cs, r.out, r.lbl));
  }

  lemma FilterKeeps(r: Rest, cs: Cg)
    requires Bounded(cs) && IsOpen(cs) && r.Filter?
    ensures Continues(r, cs, After(r, cs))
  {
    hide FilterBlocks;
    FilterFresh(cs, r.qr, r.key);
    GrowContinues(r, cs, After(r, cs), FilterBlocks(cs, r.qr, r.key));
  }

  lemma JoinVisitKeeps(r: Rest, cs: Cg, kind: JoinKind, types: seq<nat>)
    requires Bounded(cs) && IsOpen(cs) && r.Join?
    ensures Continues(r, cs, VisitJoin(cs, kind, types))
  {
    hide JoinLoopBlocks, CrossBlocks, LeftOuterBlocks;
    JoinFresh(cs, kind, types);
    GrowContinues(r, cs, VisitJoin(cs, kind, types), JoinBlocks(cs, kind, types));
  }

  lemma JoinKeeps(r: Rest, cs: Cg)
    requires Bounded(cs) && IsOpen(cs) && r.Join?
    ensures Continues(r, cs, After(r, cs))
  {
    JoinVisitKeeps(r, cs, r.kind, RhsTypes(r.rhs));
    assert After(r, cs) == VisitJoin(cs, r.kind, RhsTypes(r.rhs));
  }

  lemma ProjectKeeps(r: Rest, cs: Cg)
    requires Bounded(cs) && IsOpen(cs) && r.Project?
    ensures Continues(r, cs, After(r, cs))
  {
    GrowContinues(r, cs, After(r, cs), map[cs.nextBB := Block(ProjectCode(cs, r.exprs, |r.exprs|), None)]);
  }

  lemma LimitKeeps(r: Rest, cs: Cg)
    requires Bounded(cs) && IsOpen(cs) && r.Limit?
    ensures Continues(r, cs, After(r, cs))
  {
    GrowContinues(r, cs, After(r, cs), LimitBlocks(cs, r.n));
  }

  lemma EndKeeps(r: Rest, cs: Cg)
    requires Bounded(cs) && IsOpen(cs) && EndsPipeline(r)
    ensures Follows(cs, After(r, cs)) && cs.prevBB in After(r, cs).blocks && After(r, cs).blocks[cs.prevBB].term.Some?
  {
  }

  lemma VisitKeeps(r: Rest, cs: Cg)
    requires Bounded(cs) && IsOpen(cs)
    ensures EndsPipeline(r) ==>
              Follows(cs, After(r, cs)) && cs.prevBB in After(r, cs).blocks && After(r, cs).blocks[cs.prevBB].term.Some?
    ensures !EndsPipeline(r) ==> Continues(r, cs, After(r, cs))
  {
    match r
    case Foreach(_, _, _, _, _) => ForeachKeeps(r, cs);
    case Expand(_, _, _) => ExpandKeeps(r, cs);
    case Filter(_, _, _, _) => FilterKeeps(r, cs);
    case Project(_, _) => ProjectKeeps(r, cs);
    case Limit(_, _) => LimitKeeps(r, cs);
    case Sort(_) =>
    case Join(_, _, _) => JoinKeeps(r, cs);
    case Collect => EndKeeps(r, cs);
    case End => EndKeeps(r, cs);
  }

  lemma ScanKeeps(p: Plan, cs: Cg)
    requires Bounded(cs)
    ensures var cs1 := AfterScan(p, cs);
            Bounded(cs1) && Extends(cs.blocks, cs1.blocks) && IsOpen(cs1)
  {
  }

  lemma {:induction false} RestKeeps(r: Rest, cs: Cg)
    requires Bounded(cs) && IsOpen(cs)
    ensures var end := CompileRest(r, cs);
            Bounded(end) && Extends(cs.blocks, end.blocks) && end.blocks[cs.prevBB].term.Some?
    decreases r
  {
    VisitKeeps(r, cs);
    match r
    case Collect =>
    case End =>
    case Join(_, lhs, rhs) =>
      RestKeeps(lhs, After(r, cs));
      PlanKeeps(rhs, CompileRest(lhs, After(r, cs)));
    case _ => RestKeeps(r.next, After(r, cs));
  }

  lemma {:induction false} PlanKeeps(p: Plan, cs: Cg)
    requires Bounded(cs)
    ensures Bounded(CompilePlan(p, cs)) && Extends(cs.blocks, CompilePlan(p, cs).blocks)
    decreases p
  {
    ScanKeeps(p, cs);
    RestKeeps(p.rest, AfterScan(p, cs));
  }

  // What the rest of a pipeline emits is in the program once everything is.
  lemma AfterInside(r: Rest, cs: Cg, all: Blocks)
    requires Bounded(cs) && IsOpen(cs) && Extends(CompileRest(r, cs).blocks, all)
    ensures Extends(After(r, cs).blocks, all)
    ensures !EndsPipeline(r) ==> Extends(CompileRest(Tail(r), After(r, cs)).blocks, all)
  {
    VisitKeeps(r, cs);
    if !EndsPipeline(r) {
      RestKeeps(Tail(r), After(r, cs));
      if r.Join? {
        PlanKeeps(r.rhs, CompileRest(r.lhs, After(r, cs)));
      }
    }
  }
}
