/** The loop over the materialized tuples of a join, and the cross join. */
module JoinProof {
  import opened Storage
  import opened Ir
  import opened Runtime
  import opened Machine
  import opened Plan
  import opened Algebra
  import opened TupleAtATime
  import opened Codegen
  import opened Shape
  import opened Simulation

  // ----- reading a materialized tuple -----

  predicate Bits(types: seq<nat>) {
    forall i :: 0 <= i < |types| ==> types[i] in {0, 1}
  }

  // A materialized input holds nodes and relationships only.
  lemma {:induction false} RestBits(r: Rest)
    ensures Bits(RestTypes(r))
    decreases r
  {
    match r
    case Foreach(_, _, _, _, next) => RestBits(next);
    case Expand(_, _, next) => RestBits(next);
    case Join(_, lhs, rhs) => RestBits(lhs); RestBits(rhs.rest);
    case Collect =>
    case End =>
    case _ => RestBits(r.next);
  }

  lemma RhsBits(p: Plan)
    ensures Bits(RhsTypes(p))
  {
    RestBits(p.rest);
  }

  // The first i elements of the row, in consecutive registers.
  function Reads(s: State, base: Reg, row: Tuple, i: nat): State
    requires i <= |row|
  {
    if i == 0 then s else Set(Reads(s, base, row, i - 1), base + i - 1, row[i - 1])
  }

  lemma {:induction false} ReadsKeep(s: State, base: Reg, row: Tuple, i: nat)
    requires i <= |row|
    ensures var s1 := Reads(s, base, row, i);
            Scratch(s, s1, base) && forall j :: 0 <= j < i ==> RegHas(s1, base + j, row[j])
  {
    if i > 0 {
      ReadsKeep(s, base, row, i - 1);
    }
  }

  ghost predicate PointsTo(s: State, tp: Reg, jid: nat, idx: nat, row: Tuple) {
    RegHas(s, tp, TupV(jid, idx)) && idx < |RhsAt(s.rt, jid)| && RhsAt(s.rt, jid)[idx] == row
  }

  lemma {:induction false} RunConcat(w: World, types: seq<nat>, tp: Reg, base: Reg, i: nat, s: State, jid: nat,
                                     idx: nat, row: Tuple)
    requires i <= |types| && HasKinds(types, row) && Bits(types) && tp < base && PointsTo(s, tp, jid, idx, row)
    ensures Exec(w, ConcatCode(types, tp, base, i), s) == Ok(Reads(s, base, row, i))
  {
    hide Exec1;
    if i > 0 {
      RunConcat(w, types, tp, base, i - 1, s, jid, idx, row);
      ReadsKeep(s, base, row, i - 1);
      ReadOne(w, types[i - 1], tp, base + i - 1, i - 1, Reads(s, base, row, i - 1), jid, idx, row);
    }
  }

  // A typed read of an element of the right kind.
  lemma ReadOne(w: World, ty: nat, tp: Reg, d: Reg, i: nat, s: State, jid: nat, idx: nat, row: Tuple)
    requires ty in {0, 1} && i < |row| && Kind(ty, row[i]) && PointsTo(s, tp, jid, idx, row)
    ensures Exec1(w, if ty == 0 then NodeResAt(d, tp, i) else RshipResAt(d, tp, i), s) == Ok(Set(s, d, row[i]))
  {
  }

  // The merged tuple stands in the registers.
  lemma Merged(cs: Cg, types: seq<nat>, t: Tuple, row: Tuple, s: State)
    requires Matches(cs.regs, t, s) && HasKinds(types, row) && Bits(types)
    requires forall j :: 0 <= j < |row| ==> RegHas(s, BaseReg(cs) + j, row[j])
    ensures Matches(cs.regs + ConcatRegs(types, BaseReg(cs)), t + row, s)
  {
    var regs, t1 := cs.regs + ConcatRegs(types, BaseReg(cs)), t + row;
    forall i | 0 <= i < |regs|
      ensures MatchesOne(regs[i], t1[i], s)
    {
      if i < |cs.regs| {
        assert MatchesOne(cs.regs[i], t[i], s);
      } else {
        var j := i - |cs.regs|;
        assert RegHas(s, BaseReg(cs) + j, row[j]);
      }
    }
  }

  // ----- the loop -----

  predicate JoinCell(k: CellKind) {
    k in {CurIdx, MaxIdx, Dangling, CrossJoinIdx, Ra, Ridx}
  }

  // Without a join below, the cells of this join are left alone.
  lemma {:induction false} NoJoinCells(r: Rest, k: CellKind)
    requires !HasJoin(r) && JoinCell(k)
    ensures !Clobbers(r, k)
    decreases r
  {
    if !r.Collect? && !r.End? {
      NoJoinCells(Tail(r), k);
    }
  }

  function BodyBlock(cs: Cg, kind: JoinKind): Block {
    Block(Nil.Do(JoinTpAt(TpReg(cs), cs.nextJid, L(CellOf(cs, CurIdx)))),
          Some(Br(if kind == Cross then cs.nextBB + 3 else cs.nextBB + 1)))
  }

  // With no other join below.
  ghost predicate LoopSetup(p: Prog, cs: Cg, r: Rest, cs1: Cg) {
    JoinSetup(p, cs, r, cs1) && !HasJoin(r.lhs)
  }

  ghost predicate JoinSetup(p: Prog, cs: Cg, r: Rest, cs1: Cg) {
    && r.Join? && Visited(cs, r, cs1)
    && cs1.prevBB == cs.nextBB + 7 && Prev(cs1) == EMPTY && cs1.regs == JoinRegs(cs, r.kind, RhsTypes(r.rhs))
    && cs1.nextReg == BaseReg(cs) + |RhsTypes(r.rhs)|
    && Has(p, cs.nextBB, JoinEntry(cs, cs.nextBB + 9))
    && Has(p, cs.nextBB + 8, Goto(cs.mainReturn))
    && Has(p, cs.nextBB + 9, WhileHead(CellOf(cs, CurIdx), CellOf(cs, MaxIdx), cs.nextBB + 10, cs.nextBB + 8))
    && Has(p, cs.nextBB + 10, BodyBlock(cs, r.kind))
    && Has(p, cs.prevBB, Seal(Prev(cs), cs.nextBB))
  }

  function Rows(cs: Cg, s: State): seq<Tuple> {
    RhsAt(s.rt, cs.nextJid)
  }

  // Somewhere in the loop, with position i next.
  ghost predicate InLoop(p: Prog, cs: Cg, r: Rest, s: State, t: Tuple, k: Flow, i: nat)
    requires r.Join?
  {
    && Holding(p, cs, r, s, t, k)
    && CellHas(s, CellOf(cs, CurIdx), IntV(i)) && CellHas(s, CellOf(cs, MaxIdx), IntV(|Rows(cs, s)|))
    && i <= |Rows(cs, s)|
  }

  lemma LoopEnd(p: Prog, cs: Cg, r: Rest, cs1: Cg, s: State, t: Tuple, k: Flow)
    requires JoinSetup(p, cs, r, cs1) && InLoop(p, cs, r, s, t, k, |Rows(cs, s)|)
    ensures Result(p, cs, r, s, Run(cs.nextBB + 9, 0, s), Nothing(k), s)
  {
    hide Reaches, JoinEntry, BodyBlock;
    var n := cs.nextBB;
    RunWhile(p, n + 9, CellOf(cs, CurIdx), CellOf(cs, MaxIdx), n + 10, n + 8, s);
    Drop(p, cs, r, s, t, k, n + 8);
    GoesFrom(p, cs, Run(n + 9, 0, s), Run(n + 8, 0, s), Back, s);
  }

  lemma FetchRun(p: Prog, cs: Cg, r: Rest, cs1: Cg, s: State, i: nat, m: nat)
    requires JoinSetup(p, cs, r, cs1) && CellHas(s, CellOf(cs, CurIdx), IntV(i))
             && CellHas(s, CellOf(cs, MaxIdx), IntV(m)) && i < m
    requires i < |Rows(cs, s)|
    ensures Reaches(p, Run(cs.nextBB + 9, 0, s),
                    Run(if r.kind == Cross then cs.nextBB + 3 else cs.nextBB + 1,
                        0, Set(s, TpReg(cs), TupV(cs.nextJid, i))))
  {
    hide Reaches, Exec, JoinEntry, Visited, JoinRegs;
    var n, s1 := cs.nextBB, Set(s, TpReg(cs), TupV(cs.nextJid, i));
    RunWhile(p, n + 9, CellOf(cs, CurIdx), CellOf(cs, MaxIdx), n + 10, n + 8, s);
    ExecOne(p.w, JoinTpAt(TpReg(cs), cs.nextJid, L(CellOf(cs, CurIdx))), s, s1);
    RunBlock(p, n + 10, s);
    Trans(p, Run(n + 9, 0, s), Run(n + 10, 0, s), Run(if r.kind == Cross then n + 3 else n + 1, 0, s1));
  }

  // The tuple at the current position is fetched.
  lemma Fetch(p: Prog, cs: Cg, r: Rest, cs1: Cg, s: State, t: Tuple, k: Flow, i: nat) returns (s1: State)
    requires JoinSetup(p, cs, r, cs1) && InLoop(p, cs, r, s, t, k, i) && i < |Rows(cs, s)|
    ensures Reaches(p, Run(cs.nextBB + 9, 0, s), Run(if r.kind == Cross then cs.nextBB + 3 else cs.nextBB + 1, 0, s1))
    ensures s1 == Set(s, TpReg(cs), TupV(cs.nextJid, i)) && Ran(p, cs, r, s, Nothing(k), s1)
            && InLoop(p, cs, r, s1, t, k, i)
  {
    hide Reaches, JoinEntry, BodyBlock, WhileHead, Holding, Ran, LayoutOk;
    s1 := Set(s, TpReg(cs), TupV(cs.nextJid, i));
    FetchRun(p, cs, r, cs1, s, i, |Rows(cs, s)|);
    OwnScratch(p, cs, r, s, t, k, s1);
  }

  // The entry block resets the index and the flag, and takes the size of the input.
  function Entered(cs: Cg, s: State): State {
    var size := IntV(|Rows(cs, s)|);
    var cells := s.cells[CellOf(cs, Dangling) := IntV(1)][CellOf(cs, CurIdx) := IntV(0)][CellOf(cs, MaxIdx) := size];
    Set(s, cs.nextReg, size).(cells := cells)
  }

  lemma EntryExec(p: Prog, cs: Cg, s: State)
    requires |Rows(cs, s)| < MAX_ROWS
    ensures Exec(p.w, JoinEntry(cs, cs.nextBB + 9).code, s) == Ok(Entered(cs, s))
  {
    hide Exec;
    var a := s.(cells := s.cells[CellOf(cs, Dangling) := IntV(1)]);
    var b := a.(cells := a.cells[CellOf(cs, CurIdx) := IntV(0)]);
    var c := Set(b, cs.nextReg, IntV(|Rows(cs, s)|));
    var code := Nil.Do(Store(K(1), CellOf(cs, Dangling))).Do(Store(K(0), CellOf(cs, CurIdx)));
    ExecTwo(p.w, Store(K(1), CellOf(cs, Dangling)), Store(K(0), CellOf(cs, CurIdx)), s, a, b);
    ExecThen(p.w, code, JoinSize(cs.nextReg, cs.nextJid), s, b, c);
    ExecThen(p.w, code.Do(JoinSize(cs.nextReg, cs.nextJid)), Store(R(cs.nextReg), CellOf(cs, MaxIdx)), s, c, Entered(cs,
        s));
  }

  lemma EnteredFrame(cs: Cg, r: Rest, s: State)
    requires r.Join?
    ensures Frame(cs, r, s, Entered(cs, s))
  {
    hide HasVar, HasProject;
  }

  lemma EnteredLoop(p: Prog, cs: Cg, r: Rest, s: State, t: Tuple, k: Flow)
    requires r.Join? && LayoutOk(cs, r) && Pre(p, cs, r, s, t, k)
    ensures var s1 := Entered(cs, s);
            Ran(p, cs, r, s, Nothing(k), s1) && InLoop(p, cs, r, s1, t, k, 0)
              && CellHas(s1, CellOf(cs, Dangling), IntV(1))
  {
    hide LayoutOk, Matches, CacheOk, HasKinds, Frame, Ran;
    EnteredFrame(cs, r, s);
    Own(p, cs, r, s, t, k, Entered(cs, s));
  }

  lemma Start(p: Prog, cs: Cg, r: Rest, cs1: Cg, s: State, t: Tuple, k: Flow) returns (s1: State)
    requires JoinSetup(p, cs, r, cs1) && Pre(p, cs, r, s, t, k)
    ensures Reaches(p, Entering(cs, s), Run(cs.nextBB + 9, 0, s1)) && s1 == Entered(cs, s)
    ensures Ran(p, cs, r, s, Nothing(k), s1) && InLoop(p, cs, r, s1, t, k, 0)
            && CellHas(s1, CellOf(cs, Dangling), IntV(1))
  {
    hide Reaches, Exec, Exec1, BodyBlock, Entered, InLoop, Ran, Matches, Calm;
    var n := cs.nextBB;
    s1 := Entered(cs, s);
    EntryExec(p, cs, s);
    RunBlock(p, n, s);
    Leave(p, cs, n, s);
    Trans(p, Entering(cs, s), Run(n, 0, s), Run(n + 9, 0, s1));
    EnteredLoop(p, cs, r, s, t, k);
  }

  // ----- what the rows below need of the visit -----

  lemma LoopFacts(p: Prog, cs: Cg, r: Rest, cs1: Cg)
    requires LoopSetup(p, cs, r, cs1)
    ensures r.Join? && Visited(cs, r, cs1) && !HasJoin(r.lhs) && BaseReg(cs) <= cs1.nextReg && cs1.pipe == cs.pipe
    ensures !EndsInCollect(r) ==> cs.jids != [] && cs.jids[0] < cs.nextJid
    ensures forall s :: Entering(cs1, s) == Run(cs.nextBB + 7, 0, s)
  {
    hide Has, JoinRegs, JoinEntry, BodyBlock, WhileHead, RhsTypes;
  }

  // The operators below leave the input of this join alone.
  lemma RowsKept(p: Prog, cs: Cg, r: Rest, s: State, o: Outcome, s1: State)
    requires Ran(p, cs, r, s, o, s1) && (!EndsInCollect(r) ==> cs.jids != [] && cs.jids[0] < cs.nextJid)
    ensures Rows(cs, s1) == Rows(cs, s)
  {
    hide Calm, Frame;
  }

  lemma RowReady(p: Prog, cs: Cg, r: Rest, cs1: Cg, s: State, t: Tuple, k: Flow, i: nat, t1: Tuple)
    requires LoopSetup(p, cs, r, cs1) && InLoop(p, cs, r, s, t, k, i) && Matches(cs1.regs, t1, s)
    ensures Pre(p, cs1, r.lhs, s, t1, k)
  {
    hide Matches, LayoutOk, JoinRegs, JoinEntry, BodyBlock;
  }

  // ----- the cross join -----

  ghost predicate CrossSetup(p: Prog, cs: Cg, r: Rest, cs1: Cg) {
    CrossParts(p, cs, r, cs1) && !HasJoin(r.lhs)
  }

  ghost predicate CrossParts(p: Prog, cs: Cg, r: Rest, cs1: Cg) {
    && JoinSetup(p, cs, r, cs1) && r.kind == Cross && cs1.mainReturn == cs.nextBB + 9
    && Has(p, cs.nextBB + 3, CrossConcat(cs, RhsTypes(r.rhs), cs.nextBB + 7))
  }

  // The state after the tuple is merged and the index advanced.
  function Concatenated(cs: Cg, s: State, row: Tuple, i: nat): State {
    var s0 := Reads(s, BaseReg(cs), row, |row|);
    Set(s0, cs.nextReg + 4, IntV(i)).(cells := s0.cells[CellOf(cs, CurIdx) := IntV(i + 1)])
  }

  lemma ConcatExec(p: Prog, cs: Cg, types: seq<nat>, s: State, row: Tuple, i: nat)
    requires HasKinds(types, row) && Bits(types) && PointsTo(s, TpReg(cs), cs.nextJid, i, row)
    requires CellHas(s, CellOf(cs, CurIdx), IntV(i)) && i + 1 < TWO_64
    ensures Exec(p.w, CrossConcat(cs, types, cs.nextBB + 7).code, s) == Ok(Concatenated(cs, s, row, i))
  {
    hide Exec, ConcatCode, Reads;
    var s0 := Reads(s, BaseReg(cs), row, |row|);
    var code := ConcatCode(types, TpReg(cs), BaseReg(cs), |types|);
    RunConcat(p.w, types, TpReg(cs), BaseReg(cs), |types|, s, cs.nextJid, i, row);
    ReadsKeep(s, BaseReg(cs), row, |row|);
    ExecThen(p.w, code, Let(cs.nextReg + 4, L(CellOf(cs, CurIdx))), s, s0, Set(s0, cs.nextReg + 4, IntV(i)));
    ExecThen(p.w, code.Do(Let(cs.nextReg + 4, L(CellOf(cs, CurIdx)))),
             Store(Succ(cs.nextReg + 4), CellOf(cs, CurIdx)), s,
             Set(s0, cs.nextReg + 4, IntV(i)), Concatenated(cs, s, row, i));
  }

  lemma ConcatLoop(p: Prog, cs: Cg, r: Rest, cs1: Cg, s: State, t: Tuple, k: Flow, i: nat, row: Tuple)
    requires CrossParts(p, cs, r, cs1) && InLoop(p, cs, r, s, t, k, i) && i < |Rows(cs, s)| && row == Rows(cs, s)[i]
    ensures var s1 := Concatenated(cs, s, row, i);
            Ran(p, cs, r, s, Nothing(k), s1) && InLoop(p, cs, r, s1, t, k, i + 1)
  {
    hide Reads, CrossConcat, BodyBlock, JoinEntry, JoinRegs;
    ReadsKeep(s, BaseReg(cs), row, |row|);
    Own(p, cs, r, s, t, k, Concatenated(cs, s, row, i));
  }

  lemma ConcatMatches(p: Prog, cs: Cg, r: Rest, cs1: Cg, s: State, t: Tuple, k: Flow, i: nat, row: Tuple)
    requires CrossParts(p, cs, r, cs1) && Matches(cs.regs, t, Concatenated(cs, s, row, i))
    requires HasKinds(RhsTypes(r.rhs), row) && Bits(RhsTypes(r.rhs))
    ensures Matches(cs1.regs, t + row, Concatenated(cs, s, row, i))
  {
    hide Reads, CrossConcat, BodyBlock, JoinEntry, Matches, ConcatRegs, Visited;
    var s1 := Concatenated(cs, s, row, i);
    ReadsKeep(s, BaseReg(cs), row, |row|);
    assert forall j :: 0 <= j < |row| ==> RegHas(s1, BaseReg(cs) + j, row[j]);
    Merged(cs, RhsTypes(r.rhs), t, row, s1);
  }

  // The current tuple is merged with the materialized one, and the operators below take it.
  lemma Merge(p: Prog, cs: Cg, r: Rest, cs1: Cg, s: State, t: Tuple, k: Flow, i: nat) returns (s1: State)
    requires CrossParts(p, cs, r, cs1) && InLoop(p, cs, r, s, t, k, i) && i < |Rows(cs, s)|
             && RegHas(s, TpReg(cs), TupV(cs.nextJid, i))
    ensures Reaches(p, Run(cs.nextBB + 3, 0, s), Run(cs.nextBB + 7, 0, s1)) && s1.rt == s.rt
    ensures Ran(p, cs, r, s, Nothing(k), s1) && InLoop(p, cs, r, s1, t, k, i + 1)
            && Matches(cs1.regs, t + Rows(cs, s)[i], s1)
  {
    hide Reaches, Exec, Exec1, BodyBlock, JoinEntry, Ran, Matches, Calm, Concatenated, ConcatCode;
    var row := Rows(cs, s)[i];
    RhsBits(r.rhs);
    s1 := Concatenated(cs, s, row, i);
    ConcatExec(p, cs, RhsTypes(r.rhs), s, row, i);
    RunBlock(p, cs.nextBB + 3, s);
    ConcatLoop(p, cs, r, cs1, s, t, k, i, row);
    ConcatMatches(p, cs, r, cs1, s, t, k, i, row);
    ConcatRt(cs, s, row, i);
  }

  lemma ConcatRt(cs: Cg, s: State, row: Tuple, i: nat)
    ensures Concatenated(cs, s, row, i).rt == s.rt
  {
    ReadsKeep(s, BaseReg(cs), row, |row|);
  }

  lemma Consume(p: Prog, cs: Cg, r: Rest, cs1: Cg, s: State, t: Tuple, k: Flow, i: nat, row: Tuple) returns (s1: State)
    requires CrossSetup(p, cs, r, cs1) && Simulates(p, cs1, r.lhs) && InLoop(p, cs, r, s, t, k, i)
             && Matches(cs1.regs, t + row, s)
    ensures var o := Push(p.w, r.lhs, t + row, k);
            && Ran(p, cs, r, s, o, s1)
            && (o.exit == Back ==>
                  && Reaches(p, Run(cs.nextBB + 7, 0, s), Run(cs.nextBB + 9, 0, s1))
                  && InLoop(p, cs, r, s1, t, o.k, i) && Rows(cs, s1) == Rows(cs, s))
            && (o.exit != Back ==> Result(p, cs, r, s, Run(cs.nextBB + 7, 0, s), o, s1))
  {
    hide Reaches, Push, Result, Simulates, Pre, LayoutOk, Holding, Ran, JoinSetup, Visited, Entering;
    LoopFacts(p, cs, r, cs1);
    RowReady(p, cs, r, cs1, s, t, k, i, t + row);
    s1 := Below(p, cs, r, cs1, s, t, k, t + row, k);
    RowsKept(p, cs, r, s, Push(p.w, r.lhs, t + row, k), s1);
    NoJoinCells(r.lhs, CurIdx);
    NoJoinCells(r.lhs, MaxIdx);
  }

  // The index has come to the end.
  predicate IndexAtEnd(cs: Cg, s: State, n: nat) {
    CellHas(s, CellOf(cs, CurIdx), IntV(n)) && CellHas(s, CellOf(cs, MaxIdx), IntV(n))
  }

  /** The loop pairs the tuple with every materialized tuple, in order. */
  lemma {:induction false} CrossLoop(p: Prog, cs: Cg, r: Rest, cs1: Cg, s: State, t: Tuple, k: Flow, i: nat)
    returns (s1: State)
    requires CrossSetup(p, cs, r, cs1) && Simulates(p, cs1, r.lhs) && InLoop(p, cs, r, s, t, k, i)
    ensures var o := PushAll(p.w, r.lhs, CrossTuples(t, Rows(cs, s)[i..]), k);
            && Result(p, cs, r, s, Run(cs.nextBB + 9, 0, s), o, s1)
            && (o.exit == Back ==> IndexAtEnd(cs, s1, |Rows(cs, s)|))
    decreases |Rows(cs, s)| - i
  {
    hide Reaches, Push, Ran, Result, Simulates, Holding, BodyBlock, JoinEntry, CrossConcat;
    var n, w, rows := cs.nextBB, p.w, Rows(cs, s);
    if i == |rows| {
      LoopEnd(p, cs, r, cs1, s, t, k);
      s1 := s;
    } else {
      var s2 := Fetch(p, cs, r, cs1, s, t, k, i);
      var s3 := Merge(p, cs, r, cs1, s2, t, k, i);
      var t1, tail := t + rows[i], CrossTuples(t, rows[i + 1..]);
      var o := Push(w, r.lhs, t1, k);
      var s4 := Consume(p, cs, r, cs1, s3, t, k, i + 1, rows[i]);
      assert rows[i..][1..] == rows[i + 1..] && CrossTuples(t, rows[i..]) == [t1] + tail;
      PushAllCons(w, r.lhs, t1, tail, k);
      if o.exit == Back {
        s1 := CrossLoop(p, cs, r, cs1, s4, t, o.k, i + 1);
        ResultAfter(p, cs, r, s3, Run(n + 7, 0, s3), o, s4, Run(n + 9, 0, s4), PushAll(w, r.lhs, tail, o.k), s1);
      } else {
        s1 := s4;
      }
      var all := PushAll(w, r.lhs, [t1] + tail, k);
      ResultAfter(p, cs, r, s2, Run(n + 3, 0, s2), Nothing(k), s3, Run(n + 7, 0, s3), all, s1);
      ResultAfter(p, cs, r, s, Run(n + 9, 0, s), Nothing(k), s2, Run(n + 3, 0, s2), all, s1);
    }
  }

  // ----- the operator -----

  ghost predicate LoopTable(own: Blocks, cs: Cg, kind: JoinKind) {
    var n := cs.nextBB;
    && Holds(own, n, JoinEntry(cs, n + 9)) && Holds(own, n + 4, JoinIncr(cs, n + 3, n + 9)) && Holds(own, n + 7, EMPTY)
    && Holds(own, n + 8, Goto(cs.mainReturn))
    && Holds(own, n + 9, WhileHead(CellOf(cs, CurIdx), CellOf(cs, MaxIdx), n + 10, n + 8))
    && Holds(own, n + 10, BodyBlock(cs, kind))
  }

  lemma TableOfLoop(cs: Cg, kind: JoinKind)
    ensures LoopTable(JoinLoopBlocks(cs, kind), cs, kind)
  {
    hide JoinEntry, JoinIncr, WhileHead, Goto;
  }

  lemma CrossTable(cs: Cg, types: seq<nat>)
    ensures LoopTable(JoinBlocks(cs, Cross, types), cs, Cross)
    ensures Holds(JoinBlocks(cs, Cross, types), cs.nextBB + 3, CrossConcat(cs, types, cs.nextBB + 7))
  {
    TableOfLoop(cs, Cross);
    hide JoinLoopBlocks, JoinEntry, JoinIncr, WhileHead, Goto, BodyBlock, CrossConcat;
  }

  // The blocks of a join are in the program.
  ghost predicate Emitted(p: Prog, cs: Cg, r: Rest) {
    && Bounded(cs) && IsOpen(cs) && Extends(CompileRest(r, cs).blocks, p.blocks) && LayoutOk(cs, r)
    && (!EndsInCollect(r) ==> cs.jids != [] && cs.jids[0] < cs.nextJid)
  }

  // What both kinds of join have in common.
  lemma MakeLoopSetup(p: Prog, cs: Cg, r: Rest)
    requires Emitted(p, cs, r) && r.Join? && LoopTable(JoinBlocks(cs, r.kind, RhsTypes(r.rhs)), cs, r.kind)
    ensures JoinSetup(p, cs, r, After(r, cs))
  {
    hide JoinBlocks, CompileRest, Continues, RhsTypes, JoinRegs;
    JoinFresh(cs, r.kind, RhsTypes(r.rhs));
    OwnEmitted(p, cs, r, JoinBlocks(cs, r.kind, RhsTypes(r.rhs)), cs.nextBB + (if r.kind == Cross then 12 else 15));
    VisitKeeps(r, cs);
  }

  lemma MakeCross(p: Prog, cs: Cg, r: Rest)
    requires Emitted(p, cs, r) && r.Join? && r.kind == Cross
    ensures CrossParts(p, cs, r, After(r, cs))
  {
    hide JoinBlocks, CompileRest, Continues, RhsTypes, JoinRegs, JoinSetup, ConcatCode;
    CrossTable(cs, RhsTypes(r.rhs));
    MakeLoopSetup(p, cs, r);
    JoinFresh(cs, r.kind, RhsTypes(r.rhs));
    OwnEmitted(p, cs, r, JoinBlocks(cs, r.kind, RhsTypes(r.rhs)), cs.nextBB + 12);
  }

  lemma MakeSetup(p: Prog, cs: Cg, r: Rest)
    requires Ready(p, cs, r) && r.Join? && r.kind == Cross
    ensures CrossSetup(p, cs, r, After(r, cs))
  {
    hide CompileRest, CrossParts, After;
    MakeCross(p, cs, r);
  }

  lemma Enter(p: Prog, cs: Cg, r: Rest, s: State, t: Tuple, k: Flow) returns (s1: State)
    requires Ready(p, cs, r) && r.Join? && r.kind == Cross && Simulates(p, After(r, cs), r.lhs)
             && Pre(p, cs, r, s, t, k)
    ensures Post(p, cs, r, s, Push(p.w, r, t, k), s1)
    ensures Push(p.w, r, t, k).exit == Back ==> IndexAtEnd(cs, s1, |Rows(cs, s)|)
  {
    hide Reaches, After, CompileRest, Simulates, Ran, InLoop, Entered, Ready, Pre, PushAll;
    MakeSetup(p, cs, r);
    LoopFacts(p, cs, r, After(r, cs));
    InputRows(p, cs, r, s, t, k);
    var s0 := Start(p, cs, r, After(r, cs), s, t, k);
    EnteredRows(cs, s);
    s1 := CrossLoop(p, cs, r, After(r, cs), s0, t, k, 0);
    assert Rows(cs, s)[0..] == Rows(cs, s);
    ResultAfter(p, cs, r, s, Entering(cs, s), Nothing(k), s0, Run(cs.nextBB + 9, 0, s0), Push(p.w, r, t, k), s1);
  }

  lemma InputRows(p: Prog, cs: Cg, r: Rest, s: State, t: Tuple, k: Flow)
    requires Pre(p, cs, r, s, t, k) && r.Join? && !HasJoin(r.lhs)
    ensures Rows(cs, s) == k.input
  {
    hide Matches, Calm;
  }

  lemma EnteredRows(cs: Cg, s: State)
    ensures Rows(cs, Entered(cs, s)) == Rows(cs, s)
  {
  }

  // A cross join pairs the tuple with every tuple of its input.
  lemma CrossSimulates(p: Prog, cs: Cg, r: Rest)
    requires Ready(p, cs, r) && r.Join? && r.kind == Cross && Simulates(p, After(r, cs), r.lhs)
    ensures Simulates(p, cs, r)
  {
    hide Ready, Reaches, Result, Push, After, Pre;
    forall s, t, k | Pre(p, cs, r, s, t, k)
      ensures exists s1 :: Post(p, cs, r, s, Push(p.w, r, t, k), s1)
    {
      var s1 := Enter(p, cs, r, s, t, k);
    }
  }
}
