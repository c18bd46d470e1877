/** Every visit hands the next operator a state it is ready for. */
module Invariance {
  import opened Storage
  import opened Ir
  import opened Machine
  import opened Plan
  import opened Codegen
  import opened Shape
  import opened Simulation
  import JoinProof

  // ----- register layouts -----

  // What a visit does to the layout, apart from a projection.
  function Added(r: Rest): seq<nat>
    requires !EndsPipeline(r) && !r.Project?
  {
    match r
    case Foreach(_, _, _, _, _) => [1]
    case Expand(_, _, _) => [0]
    case Join(kind, _, rhs) => if kind == Cross then RhsTypes(rhs) else RhsTypes(rhs) + [7]
    case _ => []
  }

  lemma ConcatTypes(types: seq<nat>, base: Reg)
    requires JoinProof.Bits(types)
    ensures TypesOf(ConcatRegs(types, base)) == types
  {
  }

  lemma TypesAppend(a: seq<QrValue>, b: seq<QrValue>)
    ensures TypesOf(a + b) == TypesOf(a) + TypesOf(b)
  {
  }

  lemma JoinTypes(cs: Cg, kind: JoinKind, rhs: Plan)
    ensures TypesOf(JoinRegs(cs, kind, RhsTypes(rhs))) == TypesOf(cs.regs)
            + (if kind == Cross then RhsTypes(rhs) else RhsTypes(rhs) + [7])
  {
    var added, flag := ConcatRegs(RhsTypes(rhs), BaseReg(cs)), [QrValue(InCell(CellOf(cs, Dangling)), 7)];
    JoinProof.RhsBits(rhs);
    ConcatTypes(RhsTypes(rhs), BaseReg(cs));
    TypesAppend(cs.regs, added);
    TypesAppend(cs.regs + added, flag);
    assert TypesOf(flag) == [7];
    assert TypesOf(cs.regs) + RhsTypes(rhs) + [7] == TypesOf(cs.regs) + (RhsTypes(rhs) + [7]);
  }

  /** The types of the registers follow the operators. */
  lemma AddedTypes(r: Rest, cs: Cg)
    requires !EndsPipeline(r) && !r.Project?
    ensures TypesOf(After(r, cs).regs) == TypesOf(cs.regs) + Added(r)
  {
    hide RhsTypes, JoinRegs, Grow, ForeachBlocks, VariableBlocks, ExpandBlocks, FilterBlocks, LimitBlocks, JoinBlocks;
    match r
    case Foreach(_, _, _, _, _) => TypesAppend(cs.regs, [QrValue(InReg(LoopReg(cs)), 1)]);
    case Expand(_, _, _) => TypesAppend(cs.regs, [QrValue(InReg(EndReg(cs)), 0)]);
    case Join(kind, _, rhs) => JoinTypes(cs, kind, rhs);
    case Filter(_, _, _, _) =>
    case Limit(_, _) =>
    case Sort(_) =>
  }

  // The registers that the end of a pipeline finds.
  function EndRegs(r: Rest, cs: Cg): seq<QrValue>
    decreases r
  {
    if EndsPipeline(r) then cs.regs else EndRegs(Tail(r), After(r, cs))
  }

  // The left outer joins of a pipeline.
  function LeftOuters(r: Rest): nat {
    if EndsPipeline(r) then 0 else (if r.Join? && r.kind.LeftOuter? then 1 else 0) + LeftOuters(Tail(r))
  }

  function Flags(r: Rest): seq<nat> {
    if r.Join? && r.kind.LeftOuter? then [7] else []
  }

  // What the type vector lists of an operator is what the visit adds, apart from a flag.
  lemma Listed(r: Rest) returns (own: seq<nat>)
    requires !EndsPipeline(r) && !r.Project?
    ensures Added(r) == own + Flags(r) && RestTypes(r) == own + RestTypes(Tail(r))
  {
    hide RhsTypes;
    own := if r.Foreach? then [1] else if r.Expand? then [0] else if r.Join? then RhsTypes(r.rhs) else [];
    assert own + [] == own && [] + RestTypes(Tail(r)) == RestTypes(Tail(r));
  }

  lemma {:induction false} RestRegs(r: Rest, cs: Cg)
    requires !HasProject(r)
    ensures |EndRegs(r, cs)| == |cs.regs| + |RestTypes(r)| + LeftOuters(r)
    ensures LeftOuters(r) == 0 ==> TypesOf(EndRegs(r, cs)) == TypesOf(cs.regs) + RestTypes(r)
    decreases r
  {
    hide After, RestTypes, Added;
    if EndsPipeline(r) {
      assert RestTypes(r) == [] by { NoTypes(r); }
      assert TypesOf(cs.regs) + [] == TypesOf(cs.regs);
    } else {
      var own := Listed(r);
      AddedTypes(r, cs);
      RestRegs(Tail(r), After(r, cs));
      assert |After(r, cs).regs| == |TypesOf(After(r, cs).regs)|;
      assert TypesOf(cs.regs) + (own + []) + RestTypes(Tail(r)) == TypesOf(cs.regs) + (own + RestTypes(Tail(r)));
    }
  }

  lemma NoTypes(r: Rest)
    requires EndsPipeline(r)
    ensures RestTypes(r) == []
  {
  }

  /** The type vector of a join input lists exactly the registers that its End materializes, position by
      position, if and only if its pipeline has no left outer join, whose flag the vector leaves out. */
  lemma VectorFitsIff(p: Plan, cs: Cg)
    requires !HasProject(p.rest)
    ensures TypesOf(EndRegs(p.rest, AfterScan(p, cs))) == RhsTypes(p) <==> LeftOuters(p.rest) == 0
  {
    hide ScanBlocks, IndexBlocks, RestTypes, EndRegs;
    var cs1 := AfterScan(p, cs);
    assert TypesOf(cs1.regs) == [0];
    RestRegs(p.rest, cs1);
    assert |TypesOf(EndRegs(p.rest, cs1))| == |EndRegs(p.rest, cs1)|;
  }

  lemma ProjectTypes(cs: Cg, es: seq<PrExpr>)
    requires forall e :: e in es ==> ExprOk(e, TypesOf(cs.regs))
    ensures TypesOf(ProjectRegs(cs, es)) == ExprTypes(es, TypesOf(cs.regs))
  {
    forall i | 0 <= i < |es|
      ensures TypesOf(ProjectRegs(cs, es))[i] == ExprTypes(es, TypesOf(cs.regs))[i]
    {
      assert es[i] in es;
    }
  }

  lemma TypedAfter(r: Rest, cs: Cg, main: bool)
    requires !EndsPipeline(r) && Typed(r, TypesOf(cs.regs), main)
    ensures Typed(Tail(r), TypesOf(After(r, cs).regs), main)
  {
    hide RhsTypes, RhsOk;
    if r.Project? {
      ProjectTypes(cs, r.exprs);
    } else {
      AddedTypes(r, cs);
      hide After;
      var types := TypesOf(cs.regs);
      assert types + [] == types;
      assert r.Join? && r.kind != Cross ==> types + RhsTypes(r.rhs) + [7] == types + (RhsTypes(r.rhs) + [7]);
    }
  }

  // ----- layouts and cells -----

  // Without a projection below, the projected cells are left alone.
  lemma {:induction false} NoPvCells(r: Rest, k: CellKind)
    requires !HasProject(r) && k.Pv?
    ensures !Clobbers(r, k)
    decreases r
  {
    if !r.Collect? && !r.End? {
      NoPvCells(Tail(r), k);
    }
  }

  lemma ProjectLoc(r: Rest, cs: Cg, i: nat)
    requires r.Project? && LayoutOk(cs, r) && !HasProject(r.next) && i < |r.exprs|
             && ExprOk(r.exprs[i], TypesOf(cs.regs))
    ensures LocOk(cs, r.next, ProjectReg(cs, r.exprs[i], i + 1))
  {
    NoPvCells(r.next, Pv(i + 1));
    var e := r.exprs[i];
    if e.ftype == FBoolean {
      assert LocOk(cs, r, cs.regs[e.id]);
    }
  }

  lemma JoinLoc(r: Rest, cs: Cg, i: nat)
    requires r.Join? && LayoutOk(cs, r) && !HasJoin(r.lhs) && i < |JoinRegs(cs, r.kind, RhsTypes(r.rhs))|
    ensures LocOk(After(r, cs), r.lhs, JoinRegs(cs, r.kind, RhsTypes(r.rhs))[i])
  {
    hide RhsTypes, Grow, JoinBlocks;
    NoJoinDangling(r.lhs);
    if i < |cs.regs| {
      assert LocOk(cs, r, cs.regs[i]);
    }
  }

  lemma NoJoinDangling(r: Rest)
    requires !HasJoin(r)
    ensures !Clobbers(r, Dangling)
  {
    JoinProof.NoJoinCells(r, Dangling);
  }

  /** The operators still to come leave the cells of the new layout alone. */
  lemma LayoutAfter(r: Rest, cs: Cg, main: bool)
    requires !EndsPipeline(r) && LayoutOk(cs, r) && Typed(r, TypesOf(cs.regs), main)
    ensures LayoutOk(After(r, cs), Tail(r))
  {
    hide RhsTypes, RhsOk, Grow, ForeachBlocks, VariableBlocks, ExpandBlocks, FilterBlocks, LimitBlocks, JoinBlocks,
         JoinRegs;
    var cs1 := After(r, cs);
    forall i | 0 <= i < |cs1.regs|
      ensures LocOk(cs1, Tail(r), cs1.regs[i])
    {
      if r.Project? {
        assert r.exprs[i] in r.exprs;
        ProjectLoc(r, cs, i);
      } else if r.Join? {
        JoinLoc(r, cs, i);
      } else if i < |cs.regs| {
        assert LocOk(cs, r, cs.regs[i]);
      }
    }
  }

  // ----- arguments -----

  lemma ArgsAfter(args: seq<Arg>, at: nat, r: Rest)
    requires !EndsPipeline(r) && ArgsFrom(args, at, RestArgs(r))
    ensures ArgsFrom(args, at + Width(r), RestArgs(Tail(r)))
  {
    if r.Join? {
      ArgsSplit(args, at, RestArgs(r.lhs), PlanArgs(r.rhs));
    } else {
      ArgsSplit(args, at, OwnArgs(r), RestArgs(r.next));
    }
  }

  /** The invariant of the traversal. */
  lemma ReadyAfter(p: Prog, cs: Cg, r: Rest)
    requires Ready(p, cs, r) && !EndsPipeline(r)
    ensures Ready(p, After(r, cs), Tail(r))
  {
    hide After, CompileRest, Extends, Typed, LayoutOk, ArgsFrom, RestArgs, Bounded, IsOpen, GraphOk;
    VisitKeeps(r, cs);
    AfterInside(r, cs, p.blocks);
    TypedAfter(r, cs, EndsInCollect(r));
    LayoutAfter(r, cs, EndsInCollect(r));
    ArgsAfter(p.w.args, cs.opId, r);
    if r.Project? {
      NoKeys(r, cs);
    }
  }

  lemma NoKeys(r: Rest, cs: Cg)
    requires r.Project? && Typed(r, TypesOf(cs.regs), EndsInCollect(r))
    ensures !HasProject(r.next)
  {
  }
}
