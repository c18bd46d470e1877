/** The control-flow graph at any point of a compilation, whether or not the plan is well typed: every
    branch goes to a block of the function, and the only block without a terminator that control can
    reach is the open one. */
module WellFormed {
  import opened Storage
  import opened Ir
  import opened Plan
  import opened Codegen
  import opened Shape
  import Machine

  function Targets(b: Block): seq<BlockId> {
    match b.term
    case Some(Br(t)) => [t]
    case Some(CondBr(_, t, e)) => [t, e]
    case _ => []
  }

  predicate Closed(bs: Blocks, t: BlockId) {
    t in bs && bs[t].term.Some?
  }

  // Every branch goes to a block of the function that has a terminator, or to the open block.
  ghost predicate WellFormed(cs: Cg) {
    && Bounded(cs)
    && (forall b, t :: b in cs.blocks && t in Targets(cs.blocks[b]) ==>
          Closed(cs.blocks, t) || (IsOpen(cs) && t == cs.prevBB))
    && (cs.entry.Some? ==> Closed(cs.blocks, cs.entry.value))
    && (IsOpen(cs) ==> cs.entry.Some? && Closed(cs.blocks, cs.mainReturn) && Closed(cs.blocks, cs.scanEnd))
  }

  // ----- what a visit's own blocks may branch to -----

  type Ids = BlockId -> bool

  // The given blocks are there and have a terminator.
  ghost predicate AllClosed(own: Blocks, ids: Ids) {
    forall i :: ids(i) ==> Closed(own, i)
  }

  // Every branch goes to one of them, to the block the visit leaves open, or to where the pipeline goes
  // back to.
  ghost predicate Within(cs: Cg, own: Blocks, ids: Ids, open: BlockId) {
    forall b, t :: b in own && t in Targets(own[b]) ==> ids(t) || t == open || t == cs.mainReturn || t == cs.scanEnd
  }

  ghost predicate OwnOk(cs: Cg, own: Blocks, ids: Ids, open: BlockId) {
    AllClosed(own, ids) && Within(cs, own, ids, open) && (ids(cs.nextBB) || cs.nextBB == open)
  }

  function ForeachIds(n: nat): Ids {
    b => n <= b <= n + 2 || n + 7 <= b <= n + 9
  }

  lemma ForeachOwn(cs: Cg, d: Dir)
    ensures OwnOk(cs, ForeachBlocks(cs, d), ForeachIds(cs.nextBB), cs.nextBB + 3)
  {
    hide ForeachHead;
  }

  function VariableIds(n: nat): Ids {
    b => n <= b <= n + 1 || n + 4 <= b <= n + 5
  }

  lemma VariableOwn(cs: Cg, d: Dir, min: int, max: int)
    ensures OwnOk(cs, VariableBlocks(cs, d, min, max), VariableIds(cs.nextBB), cs.nextBB + 3)
  {
    hide ForeachHead;
  }

  function ExpandIds(n: nat, lbl: string): Ids {
    b => b == n || b == n + 2 || (b == n + 3 && lbl != "")
  }

  lemma ExpandOwn(cs: Cg, out: bool, lbl: string)
    ensures OwnOk(cs, ExpandBlocks(cs, out, lbl), ExpandIds(cs.nextBB, lbl), cs.nextBB + 1)
  {
  }

  function LimitIds(n: nat): Ids {
    b => n <= b <= n + 1
  }

  lemma LimitOwn(cs: Cg, limit: int)
    ensures OwnOk(cs, LimitBlocks(cs, limit), LimitIds(cs.nextBB), cs.nextBB + 2)
  {
  }

  // Blocks put together, of which the second kind overwrite none of the first that are needed.
  lemma Together(cs: Cg, a: Blocks, b: Blocks, ids: Ids, more: Ids, all: Ids, open: BlockId)
    requires AllClosed(a, ids) && AllClosed(b, more) && Within(cs, a, all, open) && Within(cs, b, all, open)
    requires forall i :: all(i) ==> more(i) || (ids(i) && i !in b)
    ensures AllClosed(a + b, all) && Within(cs, a + b, all, open)
  {
  }

  function FilterIds(n: nat): Ids {
    b => b == n || n + 2 <= b <= n + 17
  }

  function FrameIds(n: nat): Ids {
    b => b == n || n + 2 <= b <= n + 5 || b == n + 17
  }

  function SearchIds(n: nat): Ids {
    b => n + 6 <= b <= n + 16
  }

  lemma FrameOwn(cs: Cg, qr: nat)
    ensures AllClosed(FilterFrame(cs, qr), FrameIds(cs.nextBB))
            && Within(cs, FilterFrame(cs, qr), FilterIds(cs.nextBB), cs.nextBB + 1)
  {
  }

  lemma SearchOwn(cs: Cg, code: nat)
    ensures AllClosed(SearchBlocks(cs, code), SearchIds(cs.nextBB))
    ensures Within(cs, SearchBlocks(cs, code), FilterIds(cs.nextBB), cs.nextBB + 1)
  {
  }

  lemma FilterOwn(cs: Cg, qr: nat, key: string)
    ensures OwnOk(cs, FilterBlocks(cs, qr, key), FilterIds(cs.nextBB), cs.nextBB + 1)
  {
    hide FilterFrame, SearchBlocks, AllClosed, Within;
    var n := cs.nextBB;
    FrameOwn(cs, qr);
    SearchOwn(cs, cs.dict(key));
    SearchFresh(cs, cs.dict(key));
    Together(cs, FilterFrame(cs, qr), SearchBlocks(cs, cs.dict(key)), FrameIds(n), SearchIds(n), FilterIds(n), n + 1);
  }

  function LoopIds(n: nat): Ids {
    b => b == n || b == n + 4 || n + 8 <= b <= n + 11
  }

  function CrossIds(n: nat): Ids {
    b => b == n || n + 3 <= b <= n + 4 || n + 8 <= b <= n + 11
  }

  function LeftIds(n: nat): Ids {
    b => n <= b <= n + 6 || n + 8 <= b <= n + 14
  }

  lemma LoopOwn(cs: Cg, kind: JoinKind)
    ensures AllClosed(JoinLoopBlocks(cs, kind), LoopIds(cs.nextBB))
    ensures Within(cs, JoinLoopBlocks(cs, kind),
                   if kind == Cross then CrossIds(cs.nextBB) else LeftIds(cs.nextBB), cs.nextBB + 7)
  {
  }

  lemma CrossOwn(cs: Cg, types: seq<nat>)
    ensures OwnOk(cs, JoinBlocks(cs, Cross, types), CrossIds(cs.nextBB), cs.nextBB + 7)
  {
    var own, n := CrossBlocks(cs, types), cs.nextBB;
    assert AllClosed(own, b => b == n + 3) && Within(cs, own, CrossIds(n), n + 7);
    hide JoinLoopBlocks, AllClosed, Within;
    LoopOwn(cs, Cross);
    Together(cs, JoinLoopBlocks(cs, Cross), own, LoopIds(n), b => b == n + 3, CrossIds(n), n + 7);
  }

  function InnerIds(n: nat): Ids {
    b => n + 1 <= b <= n + 3 || n + 5 <= b <= n + 6 || n + 12 <= b <= n + 14
  }

  lemma InnerOwn(cs: Cg, types: seq<nat>, i: nat, j: nat)
    ensures AllClosed(LeftOuterBlocks(cs, types, i, j), InnerIds(cs.nextBB))
    ensures Within(cs, LeftOuterBlocks(cs, types, i, j), LeftIds(cs.nextBB), cs.nextBB + 7)
  {
    hide ConcatCode;
  }

  lemma InnerKeys(cs: Cg, types: seq<nat>, i: nat, j: nat)
    ensures forall b :: b in LeftOuterBlocks(cs, types, i, j) ==> !LoopIds(cs.nextBB)(b)
  {
    hide LeftEntry, LeftNext, LeftBody, WhileHead, Goto, ConcatCode;
  }

  lemma LeftOwn(cs: Cg, types: seq<nat>, i: nat, j: nat)
    ensures OwnOk(cs, JoinBlocks(cs, LeftOuter(i, j), types), LeftIds(cs.nextBB), cs.nextBB + 7)
  {
    hide JoinLoopBlocks, LeftOuterBlocks, AllClosed, Within;
    var n := cs.nextBB;
    LoopOwn(cs, LeftOuter(i, j));
    InnerOwn(cs, types, i, j);
    InnerKeys(cs, types, i, j);
    Together(cs, JoinLoopBlocks(cs, LeftOuter(i, j)), LeftOuterBlocks(cs, types, i, j), LoopIds(n), InnerIds(n),
             LeftIds(n), n + 7);
  }

  // ----- visits -----

  // Where the branches of the grown function go.
  lemma GrownTargets(cs: Cg, own: Blocks, ids: Ids, open: BlockId, m: nat, b: BlockId, t: BlockId)
    requires WellFormed(cs) && IsOpen(cs) && OwnOk(cs, own, ids, open) && Fresh(own, cs.nextBB, m) && cs.nextBB <= m
    requires b in Grow(cs, cs.nextBB, own) && t in Targets(Grow(cs, cs.nextBB, own)[b])
    ensures Closed(Grow(cs, cs.nextBB, own), t) || t == open
  {
    GrowKeeps(cs, own, m);
    var all := Grow(cs, cs.nextBB, own);
    assert forall i :: Closed(cs.blocks, i) ==> Closed(all, i);
    assert forall i :: Closed(own, i) ==> Closed(all, i);
    if b in own {
      assert t in Targets(own[b]);
    } else if b == cs.prevBB {
      assert t == cs.nextBB;
    } else {
      assert t in Targets(cs.blocks[b]);
    }
  }

  // A visit that grows the function by such blocks keeps the graph well formed.
  lemma Grows(cs: Cg, own: Blocks, ids: Ids, open: BlockId, cs1: Cg)
    requires WellFormed(cs) && IsOpen(cs) && OwnOk(cs, own, ids, open)
    requires Fresh(own, cs.nextBB, cs1.nextBB) && cs.nextBB <= cs1.nextBB && open in own && own[open].term.None?
    requires cs1.blocks == Grow(cs, cs.nextBB, own) && cs1.prevBB == open && cs1.entry == cs.entry
             && cs1.scanEnd == cs.scanEnd
    requires ids(cs1.mainReturn) || cs1.mainReturn == cs.mainReturn
    ensures WellFormed(cs1) && IsOpen(cs1)
  {
    GrowKeeps(cs, own, cs1.nextBB);
    Kept(cs, own, cs1);
    forall b, t | b in cs1.blocks && t in Targets(cs1.blocks[b])
      ensures Closed(cs1.blocks, t) || t == open
    {
      GrownTargets(cs, own, ids, open, cs1.nextBB, b, t);
    }
    hide Targets, Grow, Within, Extends;
  }

  lemma Kept(cs: Cg, own: Blocks, cs1: Cg)
    requires Extends(cs.blocks, cs1.blocks)
    ensures forall t :: Closed(cs.blocks, t) ==> Closed(cs1.blocks, t)
  {
  }

  lemma ForeachGraph(r: Rest, cs: Cg)
    requires WellFormed(cs) && IsOpen(cs) && r.Foreach?
    ensures WellFormed(After(r, cs)) && IsOpen(After(r, cs))
  {
    hide WellFormed, IsOpen, OwnOk, Grow, ForeachBlocks, VariableBlocks;
    ForeachFresh(cs, r.dir, r.min, r.max);
    if IsVariable(r) {
      VariableOwn(cs, r.dir, r.min, r.max);
      Grows(cs, VariableBlocks(cs, r.dir, r.min, r.max), VariableIds(cs.nextBB), cs.nextBB + 3, After(r, cs));
    } else {
      ForeachOwn(cs, r.dir);
      Grows(cs, ForeachBlocks(cs, r.dir), ForeachIds(cs.nextBB), cs.nextBB + 3, After(r, cs));
    }
  }

  lemma ExpandGraph(r: Rest, cs: Cg)
    requires WellFormed(cs) && IsOpen(cs) && r.Expand?
    ensures WellFormed(After(r, cs)) && IsOpen(After(r, cs))
  {
    hide WellFormed, IsOpen, OwnOk, Grow, ExpandBlocks;
    ExpandFresh(cs, r.out, r.lbl);
    ExpandOwn(cs, r.out, r.lbl);
    Grows(cs, ExpandBlocks(cs, r.out, r.lbl), ExpandIds(cs.nextBB, r.lbl), cs.nextBB + 1, After(r, cs));
  }

  lemma FilterGraph(r: Rest, cs: Cg)
    requires WellFormed(cs) && IsOpen(cs) && r.Filter?
    ensures WellFormed(After(r, cs)) && IsOpen(After(r, cs))
  {
    hide WellFormed, IsOpen, OwnOk, Grow, FilterBlocks;
    FilterFresh(cs, r.qr, r.key);
    FilterOwn(cs, r.qr, r.key);
    Grows(cs, FilterBlocks(cs, r.qr, r.key), FilterIds(cs.nextBB), cs.nextBB + 1, After(r, cs));
  }

  lemma ProjectGraph(r: Rest, cs: Cg)
    requires WellFormed(cs) && IsOpen(cs) && r.Project?
    ensures WellFormed(After(r, cs)) && IsOpen(After(r, cs))
  {
    hide WellFormed, IsOpen, Grow, ProjectCode;
    var own := map[cs.nextBB := Block(ProjectCode(cs, r.exprs, |r.exprs|), None)];
    assert OwnOk(cs, own, b => false, cs.nextBB);
    Grows(cs, own, b => false, cs.nextBB, After(r, cs));
  }

  lemma LimitGraph(r: Rest, cs: Cg)
    requires WellFormed(cs) && IsOpen(cs) && r.Limit?
    ensures WellFormed(After(r, cs)) && IsOpen(After(r, cs))
  {
    hide WellFormed, IsOpen, OwnOk, Grow;
    LimitOwn(cs, r.n);
    Grows(cs, LimitBlocks(cs, r.n), LimitIds(cs.nextBB), cs.nextBB + 2, After(r, cs));
  }

  lemma JoinGraph(r: Rest, cs: Cg)
    requires WellFormed(cs) && IsOpen(cs) && r.Join?
    ensures WellFormed(After(r, cs)) && IsOpen(After(r, cs))
  {
    hide WellFormed, IsOpen, OwnOk, Grow, JoinBlocks, RhsTypes, JoinRegs;
    var types := RhsTypes(r.rhs);
    JoinFresh(cs, r.kind, types);
    match r.kind
    case Cross =>
      CrossOwn(cs, types);
      Grows(cs, JoinBlocks(cs, r.kind, types), CrossIds(cs.nextBB), cs.nextBB + 7, After(r, cs));
    case LeftOuter(i, j) =>
      LeftOwn(cs, types, i, j);
      Grows(cs, JoinBlocks(cs, r.kind, types), LeftIds(cs.nextBB), cs.nextBB + 7, After(r, cs));
  }

  // The ends of a pipeline close the open block and open none.
  lemma EndGraph(r: Rest, cs: Cg)
    requires WellFormed(cs) && IsOpen(cs) && EndsPipeline(r)
    ensures WellFormed(After(r, cs)) && !IsOpen(After(r, cs)) && After(r, cs).entry.Some?
  {
    hide CollectCode, EndCode;
    EndKeeps(r, cs);
    var cs1 := After(r, cs);
    Kept(cs, map[], cs1);
    forall b, t | b in cs1.blocks && t in Targets(cs1.blocks[b])
      ensures Closed(cs1.blocks, t)
    {
      if b != cs.prevBB && b != cs.nextBB {
        assert cs1.blocks[b] == cs.blocks[b];
      }
    }
  }

  /** Every visit keeps the graph well formed, and leaves one block open unless it ends the pipeline. */
  lemma VisitGraph(r: Rest, cs: Cg)
    requires WellFormed(cs) && IsOpen(cs)
    ensures WellFormed(After(r, cs)) && (IsOpen(After(r, cs)) <==> !EndsPipeline(r)) && After(r, cs).entry.Some?
  {
    hide After;
    match r
    case Foreach(_, _, _, _, _) => ForeachGraph(r, cs);
    case Expand(_, _, _) => ExpandGraph(r, cs);
    case Filter(_, _, _, _) => FilterGraph(r, cs);
    case Project(_, _) => ProjectGraph(r, cs);
    case Limit(_, _) => LimitGraph(r, cs);
    case Sort(_) => SortGraph(r, cs);
    case Join(_, _, _) => JoinGraph(r, cs);
    case Collect => EndGraph(r, cs);
    case End => EndGraph(r, cs);
  }

  lemma SortGraph(r: Rest, cs: Cg)
    requires WellFormed(cs) && IsOpen(cs) && r.Sort?
    ensures WellFormed(After(r, cs)) && IsOpen(After(r, cs))
  {
  }

  // ----- access paths and whole plans -----

  function ScanIds(n: nat): Ids {
    b => n <= b <= n + 1 || n + 3 <= b <= n + 6
  }

  function IndexIds(n: nat): Ids {
    b => n <= b <= n + 1
  }

  // The exit of an access path leads to what was the function's entry.
  ghost predicate ScanWithin(own: Blocks, ids: Ids, open: BlockId, entry: Option<BlockId>) {
    forall b, t :: b in own && t in Targets(own[b]) ==> ids(t) || t == open || entry == Some(t)
  }

  lemma ScanOwn(cs: Cg, exit: Block, entry: Option<BlockId>)
    requires exit.term.Some? && forall t :: t in Targets(exit) ==> entry == Some(t)
    ensures AllClosed(ScanBlocks(cs, exit), ScanIds(cs.nextBB))
            && ScanWithin(ScanBlocks(cs, exit), ScanIds(cs.nextBB), cs.nextBB + 2, entry)
    ensures Fresh(ScanBlocks(cs, exit), cs.nextBB, cs.nextBB + 7) && OpenAt(ScanBlocks(cs, exit), cs.nextBB + 2)
  {
    hide InitCode;
  }

  lemma IndexOwn(cs: Cg, exit: Block, entry: Option<BlockId>)
    requires exit.term.Some? && forall t :: t in Targets(exit) ==> entry == Some(t)
    ensures AllClosed(IndexBlocks(cs, exit), IndexIds(cs.nextBB))
            && ScanWithin(IndexBlocks(cs, exit), IndexIds(cs.nextBB), cs.nextBB + 2, entry)
    ensures Fresh(IndexBlocks(cs, exit), cs.nextBB, cs.nextBB + 3) && OpenAt(IndexBlocks(cs, exit), cs.nextBB + 2)
  {
    hide InitCode;
  }

  // A further access path in front of a finished function.
  lemma Prepends(cs: Cg, own: Blocks, ids: Ids, open: BlockId, cs1: Cg)
    requires WellFormed(cs) && !IsOpen(cs) && AllClosed(own, ids) && ScanWithin(own, ids, open, cs.entry)
    requires Fresh(own, cs.nextBB, cs1.nextBB) && cs.nextBB <= cs1.nextBB && OpenAt(own, open)
    requires cs1.blocks == cs.blocks + own && cs1.prevBB == open && cs1.entry == Some(cs.nextBB) && ids(cs.nextBB)
    requires ids(cs1.mainReturn) && ids(cs1.scanEnd)
    ensures WellFormed(cs1) && IsOpen(cs1)
  {
    var all := cs1.blocks;
    assert forall i :: Closed(cs.blocks, i) ==> Closed(all, i);
    assert forall i :: Closed(own, i) ==> Closed(all, i);
    forall b, t | b in all && t in Targets(all[b])
      ensures Closed(all, t) || t == open
    {
      if b in own {
        assert t in Targets(own[b]);
      } else {
        assert t in Targets(cs.blocks[b]);
      }
    }
  }

  lemma ScanGraph(p: Plan, cs: Cg)
    requires WellFormed(cs) && !IsOpen(cs)
    ensures WellFormed(AfterScan(p, cs)) && IsOpen(AfterScan(p, cs))
  {
    hide WellFormed, IsOpen, ScanBlocks, IndexBlocks, AllClosed, ScanWithin, PipelineKeys;
    var b := Begun(p, cs);
    if p.scan.ScanLabel? {
      ScanOwn(b, ScanExit(cs), cs.entry);
      Prepends(cs, ScanBlocks(b, ScanExit(cs)), ScanIds(cs.nextBB), cs.nextBB + 2, AfterScan(p, cs));
    } else {
      IndexOwn(b, ScanExit(cs), cs.entry);
      Prepends(cs, IndexBlocks(b, ScanExit(cs)), IndexIds(cs.nextBB), cs.nextBB + 2, AfterScan(p, cs));
    }
  }

  lemma {:induction false} RestGraph(r: Rest, cs: Cg)
    requires WellFormed(cs) && IsOpen(cs)
    ensures WellFormed(CompileRest(r, cs)) && !IsOpen(CompileRest(r, cs)) && CompileRest(r, cs).entry.Some?
    decreases r
  {
    hide WellFormed, IsOpen, After, AfterScan;
    VisitGraph(r, cs);
    match r
    case Collect =>
    case End =>
    case Join(_, lhs, rhs) => RestGraph(lhs, After(r, cs)); PlanGraph(rhs, CompileRest(lhs, After(r, cs)));
    case _ => RestGraph(r.next, After(r, cs));
  }

  lemma {:induction false} PlanGraph(p: Plan, cs: Cg)
    requires WellFormed(cs) && !IsOpen(cs)
    ensures WellFormed(CompilePlan(p, cs)) && !IsOpen(CompilePlan(p, cs)) && CompilePlan(p, cs).entry.Some?
    decreases p
  {
    hide WellFormed, IsOpen, After, AfterScan;
    ScanGraph(p, cs);
    RestGraph(p.rest, AfterScan(p, cs));
  }

  // A walk through the graph, from block to block along branches.
  ghost predicate Walk(bs: Blocks, path: seq<BlockId>)
    decreases |path|
  {
    path != [] && (|path| > 1 ==> path[0] in bs && path[1] in Targets(bs[path[0]]) && Walk(bs, path[1..]))
  }

  // However control walks from a closed block, it meets only blocks with terminators, and the open one.
  lemma {:induction false} WalkStays(cs: Cg, path: seq<BlockId>)
    requires WellFormed(cs) && Walk(cs.blocks, path)
             && (Closed(cs.blocks, path[0]) || (IsOpen(cs) && path[0] == cs.prevBB))
    ensures forall b :: b in path ==> Closed(cs.blocks, b) || (IsOpen(cs) && b == cs.prevBB)
    decreases |path|
  {
    if |path| > 1 {
      WalkStays(cs, path[1..]);
      assert path == [path[0]] + path[1..];
    }
  }

  /** In the middle of a compilation: after any visit inside a pipeline, every block on any walk from the
      entry is in the function, and all of them but the open block have terminators. */
  lemma OnlyOneOpen(r: Rest, cs: Cg, path: seq<BlockId>)
    requires WellFormed(cs) && IsOpen(cs) && !EndsPipeline(r)
    requires Walk(After(r, cs).blocks, path) && After(r, cs).entry == Some(path[0])
    ensures IsOpen(After(r, cs)) && forall b :: b in path && b != After(r, cs).prevBB ==> Closed(After(r, cs).blocks, b)
  {
    hide After;
    VisitGraph(r, cs);
    WalkStays(After(r, cs), path);
  }

  /** At the end, for every plan tree whatsoever: every block on any walk from the entry is in the function
      and has a terminator. */
  lemma AllClosedAtEnd(dict: string -> nat, p: Plan, path: seq<BlockId>)
    requires Walk(Compile(dict, p).blocks, path) && Compile(dict, p).entry == Some(path[0])
    ensures Compile(dict, p).entry.Some? && forall b :: b in path ==> Closed(Compile(dict, p).blocks, b)
  {
    hide CompilePlan;
    PlanGraph(p, Start(dict));
    WalkStays(Compile(dict, p), path);
  }

  // A step stays in its block, or takes one of its branches.
  lemma StepTargets(p: Machine.Prog, c: Machine.Config)
    requires c.Run? && c.bb in p.blocks && Machine.Step(p, c).Run?
    ensures Machine.Step(p, c).bb == c.bb || Machine.Step(p, c).bb in Targets(p.blocks[c.bb])
  {
    hide Machine.Exec1;
  }

  lemma {:induction false} StepsStay(p: Machine.Prog, cs: Cg, c: Machine.Config, n: nat)
    requires WellFormed(cs) && !IsOpen(cs) && p.blocks == cs.blocks && (c.Run? ==> Closed(cs.blocks, c.bb))
    ensures Machine.Steps(p, c, n).Run? ==> Closed(cs.blocks, Machine.Steps(p, c, n).bb)
    decreases n
  {
    hide Machine.Step, IsOpen;
    if n > 0 {
      if c.Run? && Machine.Step(p, c).Run? {
        StepTargets(p, c);
      } else if !c.Run? {
        StopStays(p, c);
      }
      StepsStay(p, cs, Machine.Step(p, c), n - 1);
    }
  }

  lemma StopStays(p: Machine.Prog, c: Machine.Config)
    requires !c.Run?
    ensures Machine.Step(p, c) == c
  {
  }

  /** At run time, for every plan tree whatsoever, from every state: however many steps are taken, control is in a
      block of the function that has a terminator. */
  lemma ControlStays(w: Machine.World, p: Plan, s: Machine.State, n: nat)
    ensures Compile(w.g.code, p).entry.Some?
    ensures var f := Compile(w.g.code, p);
            var c := Machine.Steps(Machine.Prog(f.blocks, w), Machine.Run(f.entry.value, 0, s), n);
            c.Run? ==> c.bb in f.blocks && f.blocks[c.bb].term.Some?
  {
    hide CompilePlan;
    var f := Compile(w.g.code, p);
    PlanGraph(p, Start(w.g.code));
    StepsStay(Machine.Prog(f.blocks, w), f, Machine.Run(f.entry.value, 0, s), n);
  }
}
