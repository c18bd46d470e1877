/** The left outer join: for each materialized tuple a loop over the relationships of the left node,
    with the flag that says whether any tuple has found a partner yet. */
module LeftOuterProof {
  import opened Storage
  import opened Ir
  import opened Runtime
  import opened Machine
  import opened Plan
  import opened Algebra
  import opened TupleAtATime
  import opened Codegen
  import opened Shape
  import opened Simulation
  import opened JoinProof

  function UndangBlock(cs: Cg): Block {
    Block(Nil.Do(Store(K(0), CellOf(cs, Dangling))), Some(Br(cs.nextBB + 3)))
  }

  function RetBlock(cs: Cg): Block {
    Block(Nil, Some(CondBr(Ult(L(CellOf(cs, Ridx)), K(UNKNOWN_ID)), cs.nextBB + 2, cs.nextBB + 9)))
  }

  function LeftConcat(cs: Cg, types: seq<nat>): Block {
    Block(ConcatCode(types, TpReg(cs), BaseReg(cs), |types|), Some(Br(cs.nextBB + 7)))
  }

  ghost predicate Setup(p: Prog, cs: Cg, r: Rest, cs1: Cg) {
    && LoopSetup(p, cs, r, cs1) && r.kind.LeftOuter? && cs1.mainReturn == cs.nextBB + 6
    && Has(p, cs.nextBB + 1, LeftEntry(cs, r.kind.lhsPos, r.kind.rhsPos, cs.nextBB + 12))
    && Has(p, cs.nextBB + 2, LeftNext(cs, cs.nextBB + 12))
    && Has(p, cs.nextBB + 3, LeftConcat(cs, RhsTypes(r.rhs)))
    && Has(p, cs.nextBB + 4, JoinIncr(cs, cs.nextBB + 3, cs.nextBB + 9))
    && Has(p, cs.nextBB + 5, UndangBlock(cs))
    && Has(p, cs.nextBB + 6, RetBlock(cs))
    && Has(p, cs.nextBB + 12, WhileHead(CellOf(cs, Ridx), CellOf(cs, RhsAlloca), cs.nextBB + 13, cs.nextBB + 4))
    && Has(p, cs.nextBB + 13, LeftBody(cs, cs.nextBB + 5, cs.nextBB + 2))
  }

  lemma SetupLayout(p: Prog, cs: Cg, r: Rest, cs1: Cg)
    requires r.Join? && Setup(p, cs, r, cs1)
    ensures LayoutOk(cs, r) && r.Join? && LoopSetup(p, cs, r, cs1) && r.kind.LeftOuter?
            && cs1.mainReturn == cs.nextBB + 6
  {
  }

  lemma SetupBlocks(p: Prog, cs: Cg, r: Rest, cs1: Cg)
    requires r.Join? && Setup(p, cs, r, cs1)
    ensures Has(p, cs.nextBB + 2, LeftNext(cs, cs.nextBB + 12))
    ensures Has(p, cs.nextBB + 4, JoinIncr(cs, cs.nextBB + 3, cs.nextBB + 9))
    ensures Has(p, cs.nextBB + 5, UndangBlock(cs)) && Has(p, cs.nextBB + 6, RetBlock(cs))
    ensures Has(p, cs.nextBB + 12, WhileHead(CellOf(cs, Ridx), CellOf(cs, RhsAlloca), cs.nextBB + 13, cs.nextBB + 4))
    ensures Has(p, cs.nextBB + 13, LeftBody(cs, cs.nextBB + 5, cs.nextBB + 2))
  {
    hide LoopSetup, Has;
  }

  // ----- the invariants -----

  // In the loop, with the flag's value; `i` is the next position, `at` that of the fetched tuple.
  ghost predicate InTuple(p: Prog, cs: Cg, r: Rest, s: State, t: Tuple, k: Flow, i: nat, at: nat, d: bool)
    requires r.Join?
  {
    && InLoop(p, cs, r, s, t, k, i) && CellHas(s, CellOf(cs, Dangling), Bit(d))
    && RegHas(s, TpReg(cs), TupV(cs.nextJid, at)) && at < |Rows(cs, s)|
  }

  // At a relationship of the left node, with `ids` from there on.
  ghost predicate AtEdge(p: Prog, cs: Cg, r: Rest, s: State, ids: seq<nat>, rid: nat)
    requires r.Join?
  {
    && RegHas(s, RhsIdReg(cs), IntV(rid)) && CellOf(cs, Ra) in s.cells
    && CellVal(s, CellOf(cs, Ridx)).IntV? && Linked(p.w.g, From, CellVal(s, CellOf(cs, Ridx)).n, ids)
  }

  // A step of the operator's own that keeps its place in the loop.
  ghost predicate Small(cs: Cg, s: State, s1: State) {
    && s1.rt == s.rt && RegsKept(s, s1, cs.nextReg)
    && forall c :: c in s.cells && !(c.pipe == cs.pipe && c.kind in {CrossJoinIdx, Ra, Ridx, Dangling, CurIdx}) ==>
         c in s1.cells && s1.cells[c] == s.cells[c]
  }

  lemma SmallStep(p: Prog, cs: Cg, r: Rest, s: State, t: Tuple, k: Flow, s1: State)
    requires r.Join? && LayoutOk(cs, r) && Holding(p, cs, r, s, t, k) && Small(cs, s, s1)
    ensures Ran(p, cs, r, s, Nothing(k), s1) && Holding(p, cs, r, s1, t, k)
  {
    Own(p, cs, r, s, t, k, s1);
  }

  // ----- single blocks -----

  // The body stores the relationship and compares its end with the right node.
  lemma RunBody(p: Prog, cs: Cg, s: State, id: nat, rid: nat) returns (s1: State)
    requires Has(p, cs.nextBB + 13, LeftBody(cs, cs.nextBB + 5, cs.nextBB + 2))
    requires CellHas(s, CellOf(cs, Ridx), IntV(id)) && id < INT64_MAX && RegHas(s, RhsIdReg(cs), IntV(rid))
    ensures s1 == Set(s, cs.nextReg + 7, RshipV(id)).(cells := s.cells[CellOf(cs, Ra) := RshipV(id)])
    ensures Reaches(p, Run(cs.nextBB + 13, 0, s),
                    Run(if p.w.g.rship(id).dst == rid then cs.nextBB + 5 else cs.nextBB + 2, 0, s1))
  {
    hide Reaches, Exec;
    var r := cs.nextReg;
    s1 := Set(s, r + 7, RshipV(id)).(cells := s.cells[CellOf(cs, Ra) := RshipV(id)]);
    ExecTwo(p.w, RshipById(r + 7, L(CellOf(cs, Ridx))), Store(R(r + 7), CellOf(cs, Ra)), s, Set(s, r + 7, RshipV(id)),
            s1);
    RunBlock(p, cs.nextBB + 13, s);
  }

  lemma RunNext(p: Prog, cs: Cg, s: State, id: nat) returns (s1: State)
    requires Has(p, cs.nextBB + 2, LeftNext(cs, cs.nextBB + 12)) && CellHas(s, CellOf(cs, Ra), RshipV(id))
    ensures s1 == Set(s, cs.nextReg + 7, RshipV(id))
              .(cells := s.cells[CellOf(cs, Ridx) := IntV(p.w.g.rship(id).nextSrc)])
    ensures Reaches(p, Run(cs.nextBB + 2, 0, s), Run(cs.nextBB + 12, 0, s1))
  {
    hide Reaches, Exec;
    var r := cs.nextReg;
    s1 := Set(s, r + 7, RshipV(id)).(cells := s.cells[CellOf(cs, Ridx) := IntV(p.w.g.rship(id).nextSrc)]);
    ExecTwo(p.w, Let(r + 7, L(CellOf(cs, Ra))), Store(RshipF(r + 7, 4), CellOf(cs, Ridx)), s, Set(s, r + 7, RshipV(id)),
            s1);
    RunBlock(p, cs.nextBB + 2, s);
  }

  lemma RunUndang(p: Prog, cs: Cg, s: State) returns (s1: State)
    requires Has(p, cs.nextBB + 5, UndangBlock(cs))
    ensures s1 == s.(cells := s.cells[CellOf(cs, Dangling) := IntV(0)])
    ensures Reaches(p, Run(cs.nextBB + 5, 0, s), Run(cs.nextBB + 3, 0, s1))
  {
    hide Reaches, Exec;
    s1 := s.(cells := s.cells[CellOf(cs, Dangling) := IntV(0)]);
    ExecOne(p.w, Store(K(0), CellOf(cs, Dangling)), s, s1);
    RunBlock(p, cs.nextBB + 5, s);
  }

  lemma RunIncr(p: Prog, cs: Cg, s: State, i: nat, d: bool) returns (s1: State)
    requires Has(p, cs.nextBB + 4, JoinIncr(cs, cs.nextBB + 3, cs.nextBB + 9)) && i + 1 < TWO_64
    requires CellHas(s, CellOf(cs, CurIdx), IntV(i)) && CellHas(s, CellOf(cs, Dangling), Bit(d))
    ensures s1 == Set(s, cs.nextReg + 3, IntV(i)).(cells := s.cells[CellOf(cs, CurIdx) := IntV(i + 1)])
    ensures Reaches(p, Run(cs.nextBB + 4, 0, s), Run(if d then cs.nextBB + 3 else cs.nextBB + 9, 0, s1))
  {
    hide Reaches, Exec, Exec1;
    s1 := Set(s, cs.nextReg + 3, IntV(i)).(cells := s.cells[CellOf(cs, CurIdx) := IntV(i + 1)]);
    IncrExec(p.w, cs.nextReg + 3, CellOf(cs, CurIdx), s, i);
    RunBlock(p, cs.nextBB + 4, s);
  }

  lemma RunRet(p: Prog, cs: Cg, s: State)
    requires Has(p, cs.nextBB + 6, RetBlock(cs)) && CellVal(s, CellOf(cs, Ridx)).IntV?
    ensures Reaches(p, Run(cs.nextBB + 6, 0, s),
                    Run(if CellVal(s, CellOf(cs, Ridx)).n < UNKNOWN_ID then cs.nextBB + 2 else cs.nextBB + 9, 0, s))
  {
    hide Reaches;
    RunBlock(p, cs.nextBB + 6, s);
  }

  // ----- legs of the loop -----

  lemma QuietLeg(p: Prog, cs: Cg, r: Rest, s: State, from_: BlockId, to: BlockId, t: Tuple, k: Flow, s1: State)
    requires r.Join? && LayoutOk(cs, r) && Holding(p, cs, r, s, t, k) && Small(cs, s, s1)
    requires Reaches(p, Run(from_, 0, s), Run(to, 0, s1))
    ensures Leg(p, cs, r, s, from_, Nothing(k), to, s1) && Holding(p, cs, r, s1, t, k)
  {
    hide Reaches;
    SmallStep(p, cs, r, s, t, k, s1);
  }

  // From the inner head to the verdict on the relationship.
  lemma RunLook(p: Prog, cs: Cg, r: Rest, cs1: Cg, s: State, k: Flow, ids: seq<nat>, rid: nat) returns (s1: State)
    requires r.Join? && Setup(p, cs, r, cs1) && AtEdge(p, cs, r, s, ids, rid) && ids != [] && Calm(p.w.g, cs.pipe, s, k)
    ensures s1 == Set(s, cs.nextReg + 7, RshipV(ids[0])).(cells := s.cells[CellOf(cs, Ra) := RshipV(ids[0])])
    ensures Reaches(p, Run(cs.nextBB + 12, 0, s),
                    Run(if p.w.g.rship(ids[0]).dst == rid then cs.nextBB + 5 else cs.nextBB + 2, 0, s1))
  {
    hide Reaches, Setup, LoopSetup, Has, LayoutOk;
    SetupBlocks(p, cs, r, cs1);
    SetupLayout(p, cs, r, cs1);
    var n, to := cs.nextBB, if p.w.g.rship(ids[0]).dst == rid then cs.nextBB + 5 else cs.nextBB + 2;
    RunWhile(p, n + 12, CellOf(cs, Ridx), CellOf(cs, RhsAlloca), n + 13, n + 4, s);
    s1 := RunBody(p, cs, s, ids[0], rid);
    Trans(p, Run(n + 12, 0, s), Run(n + 13, 0, s), Run(to, 0, s1));
  }

  // The tuple's place in the loop survives a step that writes neither its index nor its flag.
  lemma SamePlace(p: Prog, cs: Cg, r: Rest, s: State, t: Tuple, k: Flow, i: nat, at: nat, d: bool, s1: State)
    requires r.Join? && InTuple(p, cs, r, s, t, k, i, at, d) && Small(cs, s, s1) && Holding(p, cs, r, s1, t, k)
    requires RegHas(s1, TpReg(cs), TupV(cs.nextJid, at))
    requires CellVal(s1, CellOf(cs, CurIdx)) == CellVal(s, CellOf(cs, CurIdx))
             && CellVal(s1, CellOf(cs, Dangling)) == CellVal(s, CellOf(cs, Dangling))
    ensures InTuple(p, cs, r, s1, t, k, i, at, d) && Rows(cs, s1) == Rows(cs, s)
  {
    hide Holding;
  }

  lemma Look(p: Prog, cs: Cg, r: Rest, cs1: Cg, s: State, t: Tuple, k: Flow, i: nat, at: nat, d: bool, ids: seq<nat>,
        rid: nat) returns (s1: State)
    requires r.Join? && Setup(p, cs, r, cs1) && InTuple(p, cs, r, s, t, k, i, at, d) && AtEdge(p, cs, r, s, ids, rid)
             && ids != []
    ensures var to := if p.w.g.rship(ids[0]).dst == rid then cs.nextBB + 5 else cs.nextBB + 2;
            Leg(p, cs, r, s, cs.nextBB + 12, Nothing(k), to, s1)
    ensures InTuple(p, cs, r, s1, t, k, i, at, d) && AtEdge(p, cs, r, s1, ids, rid)
            && CellHas(s1, CellOf(cs, Ra), RshipV(ids[0]))
    ensures Rows(cs, s1) == Rows(cs, s)
  {
    hide Reaches, Leg, Linked, Matches, Calm, JoinReady, Setup, LoopSetup, Has, LayoutOk;
    SetupBlocks(p, cs, r, cs1);
    SetupLayout(p, cs, r, cs1);
    s1 := RunLook(p, cs, r, cs1, s, k, ids, rid);
    QuietLeg(p, cs, r, s, cs.nextBB + 12, if p.w.g.rship(ids[0]).dst == rid then cs.nextBB + 5 else cs.nextBB + 2, t, k,
             s1);
    SamePlace(p, cs, r, s, t, k, i, at, d, s1);
  }

  lemma Undang(p: Prog, cs: Cg, r: Rest, cs1: Cg, s: State, t: Tuple, k: Flow, i: nat, at: nat, d: bool, ids: seq<nat>,
        rid: nat) returns (s1: State)
    requires r.Join? && Setup(p, cs, r, cs1) && InTuple(p, cs, r, s, t, k, i, at, d) && AtEdge(p, cs, r, s, ids, rid)
    ensures Leg(p, cs, r, s, cs.nextBB + 5, Nothing(k), cs.nextBB + 3, s1)
    ensures InTuple(p, cs, r, s1, t, k, i, at, false) && AtEdge(p, cs, r, s1, ids, rid)
    ensures CellVal(s1, CellOf(cs, Ra)) == CellVal(s, CellOf(cs, Ra)) && Rows(cs, s1) == Rows(cs, s)
  {
    hide Reaches, Leg, Linked, Matches, Calm, JoinReady, Setup, LoopSetup, Has, LayoutOk;
    SetupBlocks(p, cs, r, cs1);
    SetupLayout(p, cs, r, cs1);
    s1 := RunUndang(p, cs, s);
    QuietLeg(p, cs, r, s, cs.nextBB + 5, cs.nextBB + 3, t, k, s1);
  }

  // The backflow block finds the chain not exhausted.
  lemma Return(p: Prog, cs: Cg, r: Rest, cs1: Cg, s: State, t: Tuple, k: Flow, ids: seq<nat>, rid: nat)
    requires r.Join? && Setup(p, cs, r, cs1) && Holding(p, cs, r, s, t, k) && AtEdge(p, cs, r, s, ids, rid)
    ensures Leg(p, cs, r, s, cs.nextBB + 6, Nothing(k), if ids == [] then cs.nextBB + 9 else cs.nextBB + 2, s)
  {
    hide Reaches, Leg, Setup, LoopSetup, Has, LayoutOk;
    SetupBlocks(p, cs, r, cs1);
    SetupLayout(p, cs, r, cs1);
    RunRet(p, cs, s);
    QuietLeg(p, cs, r, s, cs.nextBB + 6, if ids == [] then cs.nextBB + 9 else cs.nextBB + 2, t, k, s);
  }

  // On to the next relationship of the chain.
  lemma Onward(p: Prog, cs: Cg, r: Rest, cs1: Cg, s: State, t: Tuple, k: Flow, i: nat, at: nat, d: bool, ids: seq<nat>,
        rid: nat) returns (s1: State)
    requires r.Join? && Setup(p, cs, r, cs1) && InTuple(p, cs, r, s, t, k, i, at, d) && AtEdge(p, cs, r, s, ids, rid)
             && ids != []
    requires CellHas(s, CellOf(cs, Ra), RshipV(ids[0]))
    ensures Leg(p, cs, r, s, cs.nextBB + 2, Nothing(k), cs.nextBB + 12, s1)
    ensures InTuple(p, cs, r, s1, t, k, i, at, d) && AtEdge(p, cs, r, s1, ids[1..], rid) && Rows(cs, s1) == Rows(cs, s)
  {
    hide Reaches, Leg, Matches, Calm, JoinReady, Setup, LoopSetup, Has, LayoutOk;
    SetupBlocks(p, cs, r, cs1);
    SetupLayout(p, cs, r, cs1);
    s1 := RunNext(p, cs, s, ids[0]);
    QuietLeg(p, cs, r, s, cs.nextBB + 2, cs.nextBB + 12, t, k, s1);
    SamePlace(p, cs, r, s, t, k, i, at, d, s1);
  }

  // ----- passing a row on -----

  lemma Concat(p: Prog, cs: Cg, r: Rest, cs1: Cg, s: State, t: Tuple, k: Flow, i: nat, at: nat, d: bool)
    returns (s1: State)
    requires r.Join? && Setup(p, cs, r, cs1) && InTuple(p, cs, r, s, t, k, i, at, d)
    ensures var row := Rows(cs, s)[at];
            && Leg(p, cs, r, s, cs.nextBB + 3, Nothing(k), cs.nextBB + 7, s1) && Scratch(s, s1, BaseReg(cs))
            && InTuple(p, cs, r, s1, t, k, i, at, d)
            && Matches(cs1.regs, t + row + [if d then IntV(1) else IntV(0)], s1)
  {
    hide Reaches, Leg, Exec, Exec1, Reads, LeftEntry, LeftBody, LeftNext, JoinIncr, JoinEntry, ConcatCode;
    var types, row, base := RhsTypes(r.rhs), Rows(cs, s)[at], BaseReg(cs);
    RhsBits(r.rhs);
    s1 := Reads(s, base, row, |row|);
    RunConcat(p.w, types, TpReg(cs), base, |types|, s, cs.nextJid, at, row);
    ReadsKeep(s, base, row, |row|);
    RunBlock(p, cs.nextBB + 3, s);
    QuietLeg(p, cs, r, s, cs.nextBB + 3, cs.nextBB + 7, t, k, s1);
    Merged(cs, types, t, row, s1);
    Flagged(cs, t, row, types, s1, d);
  }

  // The flag is read from its cell.
  lemma Flagged(cs: Cg, t: Tuple, row: Tuple, types: seq<nat>, s: State, d: bool)
    requires Matches(cs.regs + ConcatRegs(types, BaseReg(cs)), t + row, s) && CellHas(s, CellOf(cs, Dangling), Bit(d))
    ensures Matches(cs.regs + ConcatRegs(types, BaseReg(cs)) + [QrValue(InCell(CellOf(cs, Dangling)), 7)],
                    t + row + [if d then IntV(1) else IntV(0)], s)
  {
    var regs := cs.regs + ConcatRegs(types, BaseReg(cs));
    var regs1 := regs + [QrValue(InCell(CellOf(cs, Dangling)), 7)];
    var t1 := t + row + [if d then IntV(1) else IntV(0)];
    forall i | 0 <= i < |regs1|
      ensures MatchesOne(regs1[i], t1[i], s)
    {
      if i < |regs| {
        assert MatchesOne(regs[i], (t + row)[i], s);
      }
    }
  }

  function RowWith(cs: Cg, s: State, t: Tuple, at: nat, d: bool): Tuple
    requires at < |Rows(cs, s)|
  {
    t + Rows(cs, s)[at] + [if d then IntV(1) else IntV(0)]
  }

  // The operators below take the merged row and come back with the loop's cells and registers intact.
  lemma PassRow(p: Prog, cs: Cg, r: Rest, cs1: Cg, s: State, t: Tuple, k: Flow, i: nat, at: nat, d: bool, ids: seq<nat>,
        rid: nat, t1: Tuple) returns (s1: State)
    requires r.Join? && Setup(p, cs, r, cs1) && Simulates(p, cs1, r.lhs)
    requires InTuple(p, cs, r, s, t, k, i, at, d) && AtEdge(p, cs, r, s, ids, rid) && Matches(cs1.regs, t1, s)
    ensures var o := Push(p.w, r.lhs, t1, k);
            && Leg(p, cs, r, s, cs.nextBB + 7, o, cs.nextBB + 6, s1)
            && (o.exit == Back ==>
                  && InTuple(p, cs, r, s1, t, o.k, i, at, d) && AtEdge(p, cs, r, s1, ids, rid)
                  && Rows(cs, s1) == Rows(cs, s)
                  && CellVal(s1, CellOf(cs, Ra)) == CellVal(s, CellOf(cs, Ra)))
  {
    hide Reaches, Push, Result, Simulates, Linked, Pre, LayoutOk, Holding, Ran, Setup, LoopSetup, Visited,
         Entering, Clobbers, HasLimit, Matches;
    SetupLayout(p, cs, r, cs1);
    LoopFacts(p, cs, r, cs1);
    RowReady(p, cs, r, cs1, s, t, k, i, t1);
    s1 := Below(p, cs, r, cs1, s, t, k, t1, k);
    RowsKept(p, cs, r, s, Push(p.w, r.lhs, t1, k), s1);
    NoJoinCells(r.lhs, CurIdx);
    NoJoinCells(r.lhs, MaxIdx);
    NoJoinCells(r.lhs, Dangling);
    NoJoinCells(r.lhs, Ridx);
    NoJoinCells(r.lhs, Ra);
  }

  // A row with the current flag: merged, passed on, and back.
  lemma EmitRow(p: Prog, cs: Cg, r: Rest, cs1: Cg, s: State, t: Tuple, k: Flow, i: nat, at: nat, d: bool, ids: seq<nat>,
        rid: nat) returns (s1: State)
    requires r.Join? && Setup(p, cs, r, cs1) && Simulates(p, cs1, r.lhs)
    requires InTuple(p, cs, r, s, t, k, i, at, d) && AtEdge(p, cs, r, s, ids, rid)
    ensures var o := Push(p.w, r.lhs, RowWith(cs, s, t, at, d), k);
            && Leg(p, cs, r, s, cs.nextBB + 3, o, cs.nextBB + 6, s1)
            && (o.exit == Back ==>
                  && InTuple(p, cs, r, s1, t, o.k, i, at, d) && AtEdge(p, cs, r, s1, ids, rid)
                  && Rows(cs, s1) == Rows(cs, s)
                  && CellVal(s1, CellOf(cs, Ra)) == CellVal(s, CellOf(cs, Ra)))
  {
    hide Reaches, Push, Leg, Simulates, Linked, Setup, Holding;
    var t1 := RowWith(cs, s, t, at, d);
    var s0 := Concat(p, cs, r, cs1, s, t, k, i, at, d);
    s1 := PassRow(p, cs, r, cs1, s0, t, k, i, at, d, ids, rid, t1);
    LegSeq(p, cs, r, s, cs.nextBB + 3, Nothing(k), cs.nextBB + 7, s0, Push(p.w, r.lhs, t1, k), cs.nextBB + 6, s1);
  }

  // The outcome of one relationship.
  ghost function EdgeOutcome(w: World, r: Rest, hit: bool, t0: Tuple, k: Flow): Outcome
    requires r.Join?
  {
    if hit then Push(w, r.lhs, t0, k) else Nothing(k)
  }

  // A relationship that ends at the right node is passed on with the flag cleared.
  lemma Hit(p: Prog, cs: Cg, r: Rest, cs1: Cg, s: State, t: Tuple, k: Flow, i: nat, at: nat, d: bool,
        ids: seq<nat>, rid: nat) returns (s1: State)
    requires r.Join? && Setup(p, cs, r, cs1) && Simulates(p, cs1, r.lhs) && ids != []
    requires InTuple(p, cs, r, s, t, k, i, at, d) && AtEdge(p, cs, r, s, ids, rid)
             && CellHas(s, CellOf(cs, Ra), RshipV(ids[0]))
    ensures var o := Push(p.w, r.lhs, RowWith(cs, s, t, at, false), k);
            && Leg(p, cs, r, s, cs.nextBB + 5, o, cs.nextBB + 2, s1)
            && (o.exit == Back ==>
                  && InTuple(p, cs, r, s1, t, o.k, i, at, false) && AtEdge(p, cs, r, s1, ids, rid)
                  && Rows(cs, s1) == Rows(cs, s)
                  && CellHas(s1, CellOf(cs, Ra), RshipV(ids[0])))
  {
    hide Reaches, Push, Leg, Simulates, Linked, Setup, Holding;
    var n, o := cs.nextBB, Push(p.w, r.lhs, RowWith(cs, s, t, at, false), k);
    var s0 := Undang(p, cs, r, cs1, s, t, k, i, at, d, ids, rid);
    s1 := EmitRow(p, cs, r, cs1, s0, t, k, i, at, false, ids, rid);
    if o.exit == Back {
      Return(p, cs, r, cs1, s1, t, o.k, ids, rid);
      LegSeq(p, cs, r, s0, n + 3, o, n + 6, s1, Nothing(o.k), n + 2, s1);
      assert o.emit + [] == o.emit;
    } else {
      LegElsewhere(p, cs, r, s0, n + 3, o, n + 6, s1, n + 2);
    }
    LegSeq(p, cs, r, s, n + 5, Nothing(k), n + 3, s0, o, n + 2, s1);
  }

  // An outcome that does not come back leads nowhere else either.
  lemma LegElsewhere(p: Prog, cs: Cg, r: Rest, s: State, from_: BlockId, o: Outcome, to: BlockId, s1: State,
                     to1: BlockId)
    requires Leg(p, cs, r, s, from_, o, to, s1) && o.exit != Back
    ensures Leg(p, cs, r, s, from_, o, to1, s1)
  {
  }

  // One round of the inner loop.
  lemma EdgeStep(p: Prog, cs: Cg, r: Rest, cs1: Cg, s: State, t: Tuple, k: Flow, i: nat, at: nat, d: bool,
        ids: seq<nat>, rid: nat) returns (s1: State)
    requires r.Join? && Setup(p, cs, r, cs1) && Simulates(p, cs1, r.lhs) && ids != []
    requires InTuple(p, cs, r, s, t, k, i, at, d) && AtEdge(p, cs, r, s, ids, rid)
    ensures var hit := p.w.g.rship(ids[0]).dst == rid;
            var o := EdgeOutcome(p.w, r, hit, RowWith(cs, s, t, at, false), k);
            && Leg(p, cs, r, s, cs.nextBB + 12, o, cs.nextBB + 12, s1)
            && (o.exit == Back ==>
                  InTuple(p, cs, r, s1, t, o.k, i, at, d && !hit) && AtEdge(p, cs, r, s1, ids[1..], rid)
                    && Rows(cs, s1) == Rows(cs, s))
  {
    hide Reaches, Push, Leg, Simulates, Linked, Setup, Holding;
    var n, hit := cs.nextBB, p.w.g.rship(ids[0]).dst == rid;
    var o := EdgeOutcome(p.w, r, hit, RowWith(cs, s, t, at, false), k);
    var s0 := Look(p, cs, r, cs1, s, t, k, i, at, d, ids, rid);
    if hit {
      var s2 := Hit(p, cs, r, cs1, s0, t, k, i, at, d, ids, rid);
      if o.exit == Back {
        s1 := Onward(p, cs, r, cs1, s2, t, o.k, i, at, false, ids, rid);
        LegSeq(p, cs, r, s0, n + 5, o, n + 2, s2, Nothing(o.k), n + 12, s1);
        assert o.emit + [] == o.emit;
      } else {
        s1 := s2;
        LegElsewhere(p, cs, r, s0, n + 5, o, n + 2, s1, n + 12);
      }
      LegSeq(p, cs, r, s, n + 12, Nothing(k), n + 5, s0, o, n + 12, s1);
    } else {
      s1 := Onward(p, cs, r, cs1, s0, t, k, i, at, d, ids, rid);
      LegSeq(p, cs, r, s, n + 12, Nothing(k), n + 2, s0, o, n + 12, s1);
    }
  }

  lemma InnerEnd(p: Prog, cs: Cg, r: Rest, cs1: Cg, s: State, t: Tuple, k: Flow, rid: nat)
    requires r.Join? && Setup(p, cs, r, cs1) && Holding(p, cs, r, s, t, k) && AtEdge(p, cs, r, s, [], rid)
    ensures Leg(p, cs, r, s, cs.nextBB + 12, Nothing(k), cs.nextBB + 4, s)
  {
    hide Reaches, Leg, LeftEntry, LeftNext, LeftBody, JoinIncr, JoinEntry, ConcatCode;
    var n := cs.nextBB;
    RunWhile(p, n + 12, CellOf(cs, Ridx), CellOf(cs, RhsAlloca), n + 13, n + 4, s);
    QuietLeg(p, cs, r, s, n + 12, n + 4, t, k, s);
  }

  /** The inner loop passes on one row per relationship that ends at the right node. */
  lemma {:induction false} EdgeLoop(p: Prog, cs: Cg, r: Rest, cs1: Cg, s: State, t: Tuple, k: Flow, i: nat, at: nat,
        d: bool, ids: seq<nat>, rid: nat) returns (s1: State)
    requires r.Join? && Setup(p, cs, r, cs1) && Simulates(p, cs1, r.lhs)
    requires InTuple(p, cs, r, s, t, k, i, at, d) && AtEdge(p, cs, r, s, ids, rid)
    ensures var o := PushAll(p.w, r.lhs, Repeat(RowWith(cs, s, t, at, false), Hits(p.w.g, ids, rid)), k);
            && Leg(p, cs, r, s, cs.nextBB + 12, o, cs.nextBB + 4, s1)
            && (o.exit == Back ==>
                  && InTuple(p, cs, r, s1, t, o.k, i, at, d && Hits(p.w.g, ids, rid) == 0)
                  && AtEdge(p, cs, r, s1, [], rid)
                  && Rows(cs, s1) == Rows(cs, s))
    decreases |ids|
  {
    hide Reaches, Push, Leg, Simulates, AtEdge, Setup, Holding;
    var n, w, t0 := cs.nextBB, p.w, RowWith(cs, s, t, at, false);
    if ids == [] {
      InnerEnd(p, cs, r, cs1, s, t, k, rid);
      s1 := s;
    } else {
      var hit, tail := w.g.rship(ids[0]).dst == rid, Repeat(t0, Hits(w.g, ids[1..], rid));
      var o := EdgeOutcome(w, r, hit, t0, k);
      var s0 := EdgeStep(p, cs, r, cs1, s, t, k, i, at, d, ids, rid);
      assert Repeat(t0, Hits(w.g, ids, rid)) == if hit then [t0] + tail else tail;
      PushAllCons(w, r.lhs, t0, tail, k);
      if o.exit == Back {
        s1 := EdgeLoop(p, cs, r, cs1, s0, t, o.k, i, at, d && !hit, ids[1..], rid);
      } else {
        s1 := s0;
      }
      LegSeq(p, cs, r, s, n + 12, o, n + 12, s0, PushAll(w, r.lhs, tail, o.k), n + 4, s1);
    }
  }

  // ----- one materialized tuple -----

  // The row with the flag still set, if no relationship has cleared it.
  ghost function RestOutcome(w: World, r: Rest, d: bool, t1: Tuple, k: Flow): Outcome
    requires r.Join?
  {
    if d then Push(w, r.lhs, t1, k) else Nothing(k)
  }

  // The index is advanced.
  lemma Advance(p: Prog, cs: Cg, r: Rest, cs1: Cg, s: State, t: Tuple, k: Flow, i: nat, d: bool, rid: nat)
    returns (s1: State)
    requires r.Join? && Setup(p, cs, r, cs1) && InTuple(p, cs, r, s, t, k, i, i, d) && AtEdge(p, cs, r, s, [], rid)
    ensures Leg(p, cs, r, s, cs.nextBB + 4, Nothing(k), if d then cs.nextBB + 3 else cs.nextBB + 9, s1)
    ensures InTuple(p, cs, r, s1, t, k, i + 1, i, d) && AtEdge(p, cs, r, s1, [], rid) && Rows(cs, s1) == Rows(cs, s)
  {
    hide Reaches, Leg, Linked, Matches, Calm, Setup, LoopSetup, Has, LayoutOk;
    SetupBlocks(p, cs, r, cs1);
    SetupLayout(p, cs, r, cs1);
    s1 := RunIncr(p, cs, s, i, d);
    QuietLeg(p, cs, r, s, cs.nextBB + 4, if d then cs.nextBB + 3 else cs.nextBB + 9, t, k, s1);
  }

  // With the flag cleared the next tuple follows; otherwise this one is passed on first.
  lemma FinishTuple(p: Prog, cs: Cg, r: Rest, cs1: Cg, s: State, t: Tuple, k: Flow, i: nat, d: bool, rid: nat)
    returns (s1: State)
    requires r.Join? && Setup(p, cs, r, cs1) && Simulates(p, cs1, r.lhs)
    requires InTuple(p, cs, r, s, t, k, i, i, d) && AtEdge(p, cs, r, s, [], rid)
    ensures var o := RestOutcome(p.w, r, d, RowWith(cs, s, t, i, true), k);
            && Leg(p, cs, r, s, cs.nextBB + 4, o, cs.nextBB + 9, s1)
            && (o.exit == Back ==>
                  InLoop(p, cs, r, s1, t, o.k, i + 1) && CellHas(s1, CellOf(cs, Dangling), Bit(d))
                    && Rows(cs, s1) == Rows(cs, s))
  {
    hide Reaches, Push, Leg, Simulates, AtEdge, Setup, InLoop;
    var n, o := cs.nextBB, RestOutcome(p.w, r, d, RowWith(cs, s, t, i, true), k);
    var s0 := Advance(p, cs, r, cs1, s, t, k, i, d, rid);
    if d {
      s1 := EmitRow(p, cs, r, cs1, s0, t, k, i + 1, i, true, [], rid);
      if o.exit == Back {
        PlaceHolds(p, cs, r, s1, t, o.k, i + 1, i, true);
        Return(p, cs, r, cs1, s1, t, o.k, [], rid);
        LegSeq(p, cs, r, s0, n + 3, o, n + 6, s1, Nothing(o.k), n + 9, s1);
        assert o.emit + [] == o.emit;
      } else {
        LegElsewhere(p, cs, r, s0, n + 3, o, n + 6, s1, n + 9);
      }
      LegSeq(p, cs, r, s, n + 4, Nothing(k), n + 3, s0, o, n + 9, s1);
    } else {
      s1 := s0;
    }
  }

  lemma PlaceHolds(p: Prog, cs: Cg, r: Rest, s: State, t: Tuple, k: Flow, i: nat, at: nat, d: bool)
    requires r.Join? && InTuple(p, cs, r, s, t, k, i, at, d)
    ensures Holding(p, cs, r, s, t, k)
  {
  }

  // The positions the join compares hold nodes.
  predicate Positions(cs: Cg, r: Rest) {
    && r.Join? && r.kind.LeftOuter?
    && r.kind.lhsPos < |cs.regs| && cs.regs[r.kind.lhsPos].ty == 0
    && cs.regs[r.kind.lhsPos].loc.InReg? && cs.regs[r.kind.lhsPos].loc.r < cs.nextReg
    && r.kind.rhsPos < |RhsTypes(r.rhs)| && RhsTypes(r.rhs)[r.kind.rhsPos] == 0
  }

  // After the entry block of the inner loop: the right node's id, and the head of the left node's list.
  function Compared(cs: Cg, s: State, v: Val, rid: nat, first: nat): State {
    var a := Set(Set(Set(s, cs.nextReg + 5, v), RhsIdReg(cs), IntV(rid)), cs.nextReg + 6, IntV(first));
    a.(cells := s.cells[CellOf(cs, CrossJoinIdx) := IntV(first)][CellOf(cs, Ra) := Undef]
                       [CellOf(cs, Ridx) := IntV(first)])
  }

  // Loading a field of a node record.
  lemma LetField(w: World, d: Reg, r: Reg, f: nat, s: State, a: nat)
    requires RegHas(s, r, NodeV(a)) && NodeAt(w.g.node(a), f).Some?
    ensures Exec1(w, Let(d, NodeF(r, f)), s) == Ok(Set(s, d, IntV(NodeAt(w.g.node(a), f).value)))
  {
  }

  lemma EntryRegs(w: World, cs: Cg, s: State, lhs: Reg, j: nat, a: nat, b: nat, at: nat, row: Tuple) returns (s3: State)
    requires j < |row| && row[j] == NodeV(b) && PointsTo(s, TpReg(cs), cs.nextJid, at, row) && RegHas(s, lhs, NodeV(a))
             && lhs < cs.nextReg
    ensures s3 == Set(Set(Set(s, cs.nextReg + 5, NodeV(b)), RhsIdReg(cs), IntV(w.g.node(b).id)), cs.nextReg + 6,
                      IntV(w.g.node(a).fromRships))
    ensures Exec(w, Nil.Do(NodeResAt(cs.nextReg + 5, TpReg(cs), j)).Do(Let(RhsIdReg(cs), NodeF(cs.nextReg + 5, 1)))
                       .Do(Let(cs.nextReg + 6, NodeF(lhs, 2))), s) == Ok(s3)
  {
    hide Exec, Exec1;
    var s1 := Set(s, cs.nextReg + 5, NodeV(b));
    var s2 := Set(s1, RhsIdReg(cs), IntV(w.g.node(b).id));
    s3 := Set(s2, cs.nextReg + 6, IntV(w.g.node(a).fromRships));
    var first, second := NodeResAt(cs.nextReg + 5, TpReg(cs), j), Let(RhsIdReg(cs), NodeF(cs.nextReg + 5, 1));
    ReadOne(w, 0, TpReg(cs), cs.nextReg + 5, j, s, cs.nextJid, at, row);
    LetField(w, RhsIdReg(cs), cs.nextReg + 5, 1, s1, b);
    LetField(w, cs.nextReg + 6, lhs, 2, s2, a);
    ExecTwo(w, first, second, s, s1, s2);
    ExecThen(w, Nil.Do(first).Do(second), Let(cs.nextReg + 6, NodeF(lhs, 2)), s, s2, s3);
  }

  lemma EntryCells(w: World, cs: Cg, code: Code, s: State, s3: State, n: nat)
    requires Exec(w, code, s) == Ok(s3) && RegHas(s3, cs.nextReg + 6, IntV(n))
    ensures Exec(w, code.Do(Store(R(cs.nextReg + 6), CellOf(cs, CrossJoinIdx))).Do(Alloca(CellOf(cs, Ra)))
                   .Do(Alloca(CellOf(cs, Ridx)))
                        .Do(Store(R(cs.nextReg + 6), CellOf(cs, Ridx))), s) ==
            Ok(s3.(cells := s3.cells[CellOf(cs, CrossJoinIdx) := IntV(n)][CellOf(cs, Ra) := Undef]
                                    [CellOf(cs, Ridx) := IntV(n)]))
  {
    hide Exec;
    var a := Store(R(cs.nextReg + 6), CellOf(cs, CrossJoinIdx));
    var s4 := s3.(cells := s3.cells[CellOf(cs, CrossJoinIdx) := IntV(n)]);
    var s5 := s4.(cells := s4.cells[CellOf(cs, Ra) := Undef]);
    var s6 := s5.(cells := s5.cells[CellOf(cs, Ridx) := Undef]);
    var s7 := s6.(cells := s6.cells[CellOf(cs, Ridx) := IntV(n)]);
    ExecThen(w, code, a, s, s3, s4);
    ExecThen(w, code.Do(a), Alloca(CellOf(cs, Ra)), s, s4, s5);
    ExecThen(w, code.Do(a).Do(Alloca(CellOf(cs, Ra))), Alloca(CellOf(cs, Ridx)), s, s5, s6);
    ExecThen(w, code.Do(a).Do(Alloca(CellOf(cs, Ra))).Do(Alloca(CellOf(cs, Ridx))), Store(R(cs.nextReg + 6), CellOf(cs,
        Ridx)), s, s6, s7);
    assert s7.cells == s3.cells[CellOf(cs, CrossJoinIdx) := IntV(n)][CellOf(cs, Ra) := Undef][CellOf(cs,
        Ridx) := IntV(n)];
  }

  // The inner loop starts at the head of the left node's list.
  lemma RunEntry(p: Prog, cs: Cg, r: Rest, cs1: Cg, s: State, a: nat, b: nat, at: nat, row: Tuple) returns (s1: State)
    requires Positions(cs, r) && Setup(p, cs, r, cs1) && RegHas(s, cs.regs[r.kind.lhsPos].loc.r, NodeV(a))
    requires r.kind.rhsPos < |row| && row[r.kind.rhsPos] == NodeV(b) && PointsTo(s, TpReg(cs), cs.nextJid, at, row)
    ensures s1 == Compared(cs, s, NodeV(b), p.w.g.node(b).id, p.w.g.node(a).fromRships)
    ensures Reaches(p, Run(cs.nextBB + 1, 0, s), Run(cs.nextBB + 12, 0, s1))
  {
    hide Reaches, Exec, Exec1, LoopSetup, LeftBody, LeftNext, JoinIncr, JoinEntry, LeftConcat, UndangBlock,
         RetBlock, WhileHead, RhsTypes;
    s1 := Compared(cs, s, NodeV(b), p.w.g.node(b).id, p.w.g.node(a).fromRships);
    var s3 := EntryRegs(p.w, cs, s, RegAt(cs, r.kind.lhsPos), r.kind.rhsPos, a, b, at, row);
    EntryCells(p.w, cs, Nil.Do(NodeResAt(cs.nextReg + 5, TpReg(cs), r.kind.rhsPos))
                           .Do(Let(RhsIdReg(cs), NodeF(cs.nextReg + 5, 1)))
                           .Do(Let(cs.nextReg + 6, NodeF(RegAt(cs, r.kind.lhsPos), 2))),
               s, s3, p.w.g.node(a).fromRships);
    RunBlock(p, cs.nextBB + 1, s);
  }

  // The relationships of the left node.
  ghost function LeftChain(g: Graph, kind: JoinKind, t: Tuple): seq<nat> {
    if kind.LeftOuter? && kind.lhsPos < |t| && t[kind.lhsPos].NodeV? then
      Chain(g, From, g.node(t[kind.lhsPos].p).fromRships)
    else []
  }

  // The nodes that are compared.
  lemma Ends(p: Prog, cs: Cg, r: Rest, s: State, t: Tuple, k: Flow, i: nat, d: bool) returns (a: nat, b: nat)
    requires Positions(cs, r) && InTuple(p, cs, r, s, t, k, i, i, d)
    ensures RegHas(s, cs.regs[r.kind.lhsPos].loc.r, NodeV(a))
    ensures LeftChain(p.w.g, r.kind, t) == Chain(p.w.g, From, p.w.g.node(a).fromRships)
    ensures var row := Rows(cs, s)[i];
            && r.kind.rhsPos < |row| && row[r.kind.rhsPos] == NodeV(b) && PointsTo(s, TpReg(cs), cs.nextJid, i, row)
            && IdAt(p.w.g, row, r.kind.rhsPos) == p.w.g.node(b).id
  {
    hide Calm;
    var row := Rows(cs, s)[i];
    assert MatchesOne(cs.regs[r.kind.lhsPos], t[r.kind.lhsPos], s);
    a, b := t[r.kind.lhsPos].p, row[r.kind.rhsPos].p;
  }

  lemma Placed(p: Prog, cs: Cg, r: Rest, s: State, t: Tuple, k: Flow, i: nat, d: bool, v: Val, rid: nat, first: nat)
    requires r.Join? && LayoutOk(cs, r) && InTuple(p, cs, r, s, t, k, i, i, d)
    ensures var s1 := Compared(cs, s, v, rid, first);
            && Small(cs, s, s1) && Rows(cs, s1) == Rows(cs, s)
            && (Holding(p, cs, r, s1, t, k) ==> InTuple(p, cs, r, s1, t, k, i, i, d))
  {
    hide Holding, LayoutOk;
  }

  lemma ChainLinked(g: Graph, n: nat)
    requires GraphOk(g)
    ensures Linked(g, From, g.node(n).fromRships, Chain(g, From, g.node(n).fromRships))
  {
    hide Linked, GraphOk;
    ChainIsLinked(g, n, From);
  }

  lemma Begin(p: Prog, cs: Cg, r: Rest, cs1: Cg, s: State, t: Tuple, k: Flow, i: nat, d: bool) returns (s1: State)
    requires r.Join? && r.kind.LeftOuter? && Positions(cs, r) && Setup(p, cs, r, cs1)
             && InTuple(p, cs, r, s, t, k, i, i, d) && GraphOk(p.w.g)
    ensures Leg(p, cs, r, s, cs.nextBB + 1, Nothing(k), cs.nextBB + 12, s1) && Rows(cs, s1) == Rows(cs, s)
    ensures InTuple(p, cs, r, s1, t, k, i, i, d)
    ensures AtEdge(p, cs, r, s1, LeftChain(p.w.g, r.kind, t), IdAt(p.w.g, Rows(cs, s)[i], r.kind.rhsPos))
  {
    hide Reaches, Leg, Linked, Setup, LayoutOk, Matches, Calm, JoinReady, GraphOk, LeftChain, Chain, IdAt, LoopSetup,
         JoinSetup, Positions, HasJoin, RhsTypes;
    var a, b := Ends(p, cs, r, s, t, k, i, d);
    s1 := RunEntry(p, cs, r, cs1, s, a, b, i, Rows(cs, s)[i]);
    SetupLayout(p, cs, r, cs1);
    Placed(p, cs, r, s, t, k, i, d, NodeV(b), p.w.g.node(b).id, p.w.g.node(a).fromRships);
    QuietLeg(p, cs, r, s, cs.nextBB + 1, cs.nextBB + 12, t, k, s1);
    ChainLinked(p.w.g, a);
  }

  // What one materialized tuple contributes.
  function TupleRows(t: Tuple, row: Tuple, hits: nat, d: bool): seq<Tuple> {
    Repeat(t + row + [IntV(0)], hits) + (if d && hits == 0 then [t + row + [IntV(1)]] else [])
  }

  lemma TupleOutcome(w: World, r: Rest, t: Tuple, row: Tuple, hits: nat, d: bool, k: Flow)
    requires r.Join?
    ensures var a := PushAll(w, r.lhs, Repeat(t + row + [IntV(0)], hits), k);
            Both(a, RestOutcome(w, r, d && hits == 0, t + row + [IntV(1)], a.k)) ==
            PushAll(w, r.lhs, TupleRows(t, row, hits, d), k)
  {
    hide Push;
    var rep, t1 := Repeat(t + row + [IntV(0)], hits), t + row + [IntV(1)];
    var a := PushAll(w, r.lhs, rep, k);
    if d && hits == 0 {
      PushAllOne(w, r.lhs, t1, k);
      assert rep == [] && TupleRows(t, row, hits, d) == [t1];
      var o := Push(w, r.lhs, t1, k);
      assert [] + o.emit == o.emit;
    } else {
      assert TupleRows(t, row, hits, d) == rep;
      assert a.emit + [] == a.emit;
    }
  }

  // One round of the outer loop.
  lemma TupleStep(p: Prog, cs: Cg, r: Rest, cs1: Cg, s: State, t: Tuple, k: Flow, i: nat, d: bool) returns (s1: State)
    requires r.Join? && r.kind.LeftOuter? && Positions(cs, r) && Setup(p, cs, r, cs1) && Simulates(p, cs1, r.lhs)
             && GraphOk(p.w.g)
    requires InLoop(p, cs, r, s, t, k, i) && i < |Rows(cs, s)| && CellHas(s, CellOf(cs, Dangling), Bit(d))
    ensures var h := Hits(p.w.g, LeftChain(p.w.g, r.kind, t), IdAt(p.w.g, Rows(cs, s)[i], r.kind.rhsPos));
            var o := PushAll(p.w, r.lhs, TupleRows(t, Rows(cs, s)[i], h, d), k);
            && Leg(p, cs, r, s, cs.nextBB + 9, o, cs.nextBB + 9, s1)
            && (o.exit == Back ==>
                  && InLoop(p, cs, r, s1, t, o.k, i + 1) && CellHas(s1, CellOf(cs, Dangling), Bit(d && h == 0))
                  && Rows(cs, s1) == Rows(cs, s))
  {
    hide Reaches, Push, PushAll, Leg, Simulates, Setup, AtEdge, InLoop, Positions, Ran;
    var n, g, row := cs.nextBB, p.w.g, Rows(cs, s)[i];
    var ids, rid := LeftChain(g, r.kind, t), IdAt(g, row, r.kind.rhsPos);
    var h := Hits(g, ids, rid);
    var a := PushAll(p.w, r.lhs, Repeat(RowWith(cs, s, t, i, false), h), k);
    var s2 := FetchLeg(p, cs, r, cs1, s, t, k, i, d);
    var s3 := Begin(p, cs, r, cs1, s2, t, k, i, d);
    var s4 := EdgeLoop(p, cs, r, cs1, s3, t, k, i, i, d, ids, rid);
    var b := RestOutcome(p.w, r, d && h == 0, RowWith(cs, s, t, i, true), a.k);
    if a.exit == Back {
      s1 := FinishTuple(p, cs, r, cs1, s4, t, a.k, i, d && h == 0, rid);
    } else {
      s1 := s4;
    }
    TupleOutcome(p.w, r, t, row, h, d, k);
    LegSeq(p, cs, r, s3, n + 12, a, n + 4, s4, b, n + 9, s1);
    LegSeq(p, cs, r, s2, n + 1, Nothing(k), n + 12, s3, Both(a, b), n + 9, s1);
    LegSeq(p, cs, r, s, n + 9, Nothing(k), n + 1, s2, Both(a, b), n + 9, s1);
  }

  lemma FetchLeg(p: Prog, cs: Cg, r: Rest, cs1: Cg, s: State, t: Tuple, k: Flow, i: nat, d: bool) returns (s1: State)
    requires r.Join? && Setup(p, cs, r, cs1) && InLoop(p, cs, r, s, t, k, i) && i < |Rows(cs, s)|
             && CellHas(s, CellOf(cs, Dangling), Bit(d))
    ensures Leg(p, cs, r, s, cs.nextBB + 9, Nothing(k), cs.nextBB + 1, s1) && InTuple(p, cs, r, s1, t, k, i, i, d)
            && Rows(cs, s1) == Rows(cs, s)
  {
    hide Reaches, Ran, Setup, LoopSetup, InLoop;
    SetupLayout(p, cs, r, cs1);
    s1 := JoinProof.Fetch(p, cs, r, cs1, s, t, k, i);
  }

  /** The outer loop makes, for every materialized tuple in order, the rows of a left outer join. */
  lemma {:induction false} LeftLoop(p: Prog, cs: Cg, r: Rest, cs1: Cg, s: State, t: Tuple, k: Flow, i: nat, d: bool)
    returns (s1: State)
    requires r.Join? && r.kind.LeftOuter? && Positions(cs, r) && Setup(p, cs, r, cs1) && Simulates(p, cs1, r.lhs)
             && GraphOk(p.w.g)
    requires InLoop(p, cs, r, s, t, k, i) && CellHas(s, CellOf(cs, Dangling), Bit(d))
    ensures var all := LeftOuterTuples(p.w.g, t, LeftChain(p.w.g, r.kind, t), r.kind.rhsPos, Rows(cs, s)[i..], d);
            Result(p, cs, r, s, Run(cs.nextBB + 9, 0, s), PushAll(p.w, r.lhs, all, k), s1)
    decreases |Rows(cs, s)| - i
  {
    hide Reaches, Push, PushAll, Leg, Simulates, Setup, Ran, Result, Positions, Holding;
    var g, ids, rows := p.w.g, LeftChain(p.w.g, r.kind, t), Rows(cs, s);
    SetupLayout(p, cs, r, cs1);
    if i == |rows| {
      LoopEnd(p, cs, r, cs1, s, t, k);
      PushAllNone(p.w, r.lhs, k);
      s1 := s;
    } else {
      var h := Hits(g, ids, IdAt(g, rows[i], r.kind.rhsPos));
      var a, b := TupleRows(t, rows[i], h, d), LeftOuterTuples(g, t, ids, r.kind.rhsPos, rows[i + 1..], d && h == 0);
      var o := PushAll(p.w, r.lhs, a, k);
      var s0 := TupleStep(p, cs, r, cs1, s, t, k, i, d);
      assert rows[i..][1..] == rows[i + 1..];
      assert LeftOuterTuples(g, t, ids, r.kind.rhsPos, rows[i..], d) == a + b;
      PushAllAppend(p.w, r.lhs, a, b, k);
      if o.exit == Back {
        s1 := LeftLoop(p, cs, r, cs1, s0, t, o.k, i + 1, d && h == 0);
      } else {
        s1 := s0;
      }
      LegResult(p, cs, r, s, cs.nextBB + 9, o, cs.nextBB + 9, s0, PushAll(p.w, r.lhs, b, o.k), s1);
    }
  }

  // ----- the operator -----

  ghost predicate LeftTable(own: Blocks, cs: Cg, types: seq<nat>, i: nat, j: nat) {
    var n := cs.nextBB;
    && Holds(own, n + 1, LeftEntry(cs, i, j, n + 12)) && Holds(own, n + 2, LeftNext(cs, n + 12))
    && Holds(own, n + 3, LeftConcat(cs, types)) && Holds(own, n + 5, UndangBlock(cs)) && Holds(own, n + 6, RetBlock(cs))
    && Holds(own, n + 12, WhileHead(CellOf(cs, Ridx), CellOf(cs, RhsAlloca), n + 13, n + 4))
    && Holds(own, n + 13, LeftBody(cs, n + 5, n + 2))
  }

  lemma TableOfLeft(cs: Cg, types: seq<nat>, i: nat, j: nat)
    ensures LeftTable(LeftOuterBlocks(cs, types, i, j), cs, types, i, j)
  {
    hide LeftEntry, LeftNext, LeftBody, WhileHead, Goto, ConcatCode;
  }

  lemma JoinTable(cs: Cg, types: seq<nat>, i: nat, j: nat)
    ensures LoopTable(JoinBlocks(cs, LeftOuter(i, j), types), cs, LeftOuter(i, j))
    ensures LeftTable(JoinBlocks(cs, LeftOuter(i, j), types), cs, types, i, j)
  {
    TableOfLoop(cs, LeftOuter(i, j));
    TableOfLeft(cs, types, i, j);
    LeftKeys(cs, types, i, j);
    hide JoinLoopBlocks, LeftOuterBlocks, JoinEntry, JoinIncr, WhileHead, Goto, BodyBlock, LeftEntry, LeftNext,
         LeftBody, LeftConcat, UndangBlock, RetBlock;
  }

  // The blocks of the inner loop are not those of the outer.
  lemma LeftKeys(cs: Cg, types: seq<nat>, i: nat, j: nat)
    ensures forall b :: b in LeftOuterBlocks(cs, types, i, j) ==>
                          b !in {cs.nextBB, cs.nextBB + 4} && !(cs.nextBB + 7 <= b < cs.nextBB + 12)
  {
    hide LeftEntry, LeftNext, LeftBody, WhileHead, Goto, ConcatCode;
  }

  lemma MakeSetup(p: Prog, cs: Cg, r: Rest)
    requires Ready(p, cs, r) && r.Join? && r.kind.LeftOuter?
    ensures Setup(p, cs, r, After(r, cs))
  {
    hide JoinBlocks, CompileRest, Continues, RhsTypes, JoinRegs, JoinSetup, ConcatCode;
    JoinTable(cs, RhsTypes(r.rhs), r.kind.lhsPos, r.kind.rhsPos);
    MakeLoopSetup(p, cs, r);
    JoinFresh(cs, r.kind, RhsTypes(r.rhs));
    OwnEmitted(p, cs, r, JoinBlocks(cs, r.kind, RhsTypes(r.rhs)), cs.nextBB + 15);
  }

  lemma MakePositions(p: Prog, cs: Cg, r: Rest)
    requires Ready(p, cs, r) && r.Join? && r.kind.LeftOuter?
    ensures Positions(cs, r) && GraphOk(p.w.g)
  {
    hide CompileRest, GraphOk, RhsTypes;
    assert TypesOf(cs.regs)[r.kind.lhsPos] == cs.regs[r.kind.lhsPos].ty;
  }

  lemma Enter(p: Prog, cs: Cg, r: Rest, s: State, t: Tuple, k: Flow) returns (s1: State)
    requires Ready(p, cs, r) && r.Join? && r.kind.LeftOuter? && Simulates(p, After(r, cs), r.lhs)
             && Pre(p, cs, r, s, t, k)
    ensures Post(p, cs, r, s, Push(p.w, r, t, k), s1)
  {
    MakeSetup(p, cs, r);
    MakePositions(p, cs, r);
    hide Reaches, After, CompileRest, Setup, Simulates, Ran, InLoop, Entered, Ready, LayoutOk, Calm, GraphOk,
         LeftOuterTuples;
    SetupLayout(p, cs, r, After(r, cs));
    var s0 := JoinProof.Start(p, cs, r, After(r, cs), s, t, k);
    EnteredRows(cs, s);
    s1 := LeftLoop(p, cs, r, After(r, cs), s0, t, k, 0, true);
    LoopFacts(p, cs, r, After(r, cs));
    LeftPush(p, cs, r, s, t, k);
    ResultAfter(p, cs, r, s, Entering(cs, s), Nothing(k), s0, Run(cs.nextBB + 9, 0, s0), Push(p.w, r, t, k), s1);
  }

  lemma LeftPush(p: Prog, cs: Cg, r: Rest, s: State, t: Tuple, k: Flow)
    requires Pre(p, cs, r, s, t, k) && Positions(cs, r) && !HasJoin(r.lhs)
    ensures var all := LeftOuterTuples(p.w.g, t, LeftChain(p.w.g, r.kind, t), r.kind.rhsPos, Rows(cs, s)[0..], true);
            Push(p.w, r, t, k) == PushAll(p.w, r.lhs, all, k)
  {
    hide Calm, LeftOuterTuples, PushAll;
    assert Rows(cs, s) == k.input;
    assert Rows(cs, s)[0..] == Rows(cs, s);
    assert MatchesOne(cs.regs[r.kind.lhsPos], t[r.kind.lhsPos], s);
  }

  // A left outer join makes its rows for every tuple of its input.
  lemma LeftOuterSimulates(p: Prog, cs: Cg, r: Rest)
    requires Ready(p, cs, r) && r.Join? && r.kind.LeftOuter? && Simulates(p, After(r, cs), r.lhs)
    ensures Simulates(p, cs, r)
  {
    hide Ready, Reaches, Result, Push, After, Pre;
    forall s, t, k | Pre(p, cs, r, s, t, k)
      ensures exists s1 :: Post(p, cs, r, s, Push(p.w, r, t, k), s1)
    {
      var s1 := Enter(p, cs, r, s, t, k);
    }
  }
}
