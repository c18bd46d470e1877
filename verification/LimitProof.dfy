/** Limit counts the tuples it lets through, over all enclosing loops, and leaves them all for the
    end of the access path when the next one arrives. A sort only matters once the rows are there. */
module LimitProof {
  import opened Storage
  import opened Ir
  import opened Runtime
  import opened Machine
  import opened Plan
  import opened Algebra
  import opened Codegen
  import opened Shape
  import opened Simulation

  function EntryBlock(cs: Cg, r: Rest): Block
    requires r.Limit?
  {
    Block(Nil.Do(Let(cs.nextReg, L(CellOf(cs, ResCounter)))),
          Some(CondBr(Eq(R(cs.nextReg), K(r.n % TWO_64)), cs.nextBB + 1, cs.nextBB + 2)))
  }

  function CountBlock(cs: Cg): Block {
    Block(Nil.Do(Store(Succ(cs.nextReg), CellOf(cs, ResCounter))), None)
  }

  ghost predicate Setup(p: Prog, cs: Cg, r: Rest, cs1: Cg) {
    && r.Limit? && Visited(cs, r, cs1)
    && cs1.prevBB == cs.nextBB + 2 && cs1.mainReturn == cs.mainReturn && Prev(cs1) == CountBlock(cs)
    && cs1.regs == cs.regs && cs1.nextReg == cs.nextReg + 1
    && Has(p, cs.nextBB, EntryBlock(cs, r))
    && Has(p, cs.nextBB + 1, Goto(cs.scanEnd))
    && cs.nextBB + 2 in p.blocks && p.blocks[cs.nextBB + 2].code == CountBlock(cs).code
    && Has(p, cs.prevBB, Seal(Prev(cs), cs.nextBB))
  }

  // The counter is read and compared.
  lemma Test(p: Prog, cs: Cg, r: Rest, cs1: Cg, s: State, t: Tuple, k: Flow) returns (s1: State)
    requires Setup(p, cs, r, cs1) && Holding(p, cs, r, s, t, k)
    ensures Reaches(p, Run(cs.nextBB, 0, s),
                    Run(if k.count == r.n % TWO_64 then cs.nextBB + 1 else cs.nextBB + 2, 0, s1))
    ensures s1 == Set(s, cs.nextReg, IntV(k.count)) && Ran(p, cs, r, s, Nothing(k), s1) && Holding(p, cs, r, s1, t, k)
  {
    hide Reaches;
    s1 := Set(s, cs.nextReg, IntV(k.count));
    assert Exec(p.w, EntryBlock(cs, r).code, s) == Ok(s1);
    RunBlock(p, cs.nextBB, s);
    OwnScratch(p, cs, r, s, t, k, s1);
  }

  function More(k: Flow): Flow {
    k.(count := (k.count + 1) % TWO_64)
  }

  // The counter is stored back, one higher.
  lemma Count(p: Prog, cs: Cg, r: Rest, cs1: Cg, s: State, t: Tuple, k: Flow) returns (s1: State)
    requires Setup(p, cs, r, cs1) && Holding(p, cs, r, s, t, k) && RegHas(s, cs.nextReg, IntV(k.count))
    ensures Reaches(p, Run(cs.nextBB + 2, 0, s), Entering(cs1, s1)) && s1.rt == s.rt
    ensures Ran(p, cs, r, s, Nothing(More(k)), s1) && Holding(p, cs, r, s1, t, More(k))
  {
    hide Reaches;
    s1 := s.(cells := s.cells[CellOf(cs, ResCounter) := IntV(More(k).count)]);
    assert Exec(p.w, CountBlock(cs).code, s) == Ok(s1);
    RunCode(p, cs.nextBB + 2, CountBlock(cs).code, s);
    RanQuiet(p, cs, r, s, More(k), s1);
    MatchesKept(cs, r, s, s1, t);
  }

  lemma Carry(p: Prog, cs: Cg, r: Rest, cs1: Cg, s: State, t: Tuple, k: Flow) returns (s1: State)
    requires Setup(p, cs, r, cs1) && Simulates(p, cs1, r.next) && Pre(p, cs, r, s, t, k)
    ensures Result(p, cs, r, s, Run(cs.nextBB, 0, s), Push(p.w, r, t, k), s1)
  {
    hide Reaches, Simulates, Ran, Matches, Calm, EntryBlock, CountBlock;
    var n, k1 := cs.nextBB, More(k);
    var s0 := Test(p, cs, r, cs1, s, t, k);
    if k.count == r.n % TWO_64 {
      s1 := s0;
      RunGoto(p, n + 1, cs.scanEnd, s0);
      Trans(p, Run(n, 0, s), Run(n + 1, 0, s0), Run(cs.scanEnd, 0, s1));
      RanStop(p, cs, r, s, k, s1);
    } else {
      var s2 := Count(p, cs, r, cs1, s0, t, k);
      assert Pre(p, cs1, r.next, s2, t, k1);
      s1 := PassOn(p, cs, r, cs1, s2, t, k1, t, k1);
      ResultAfter(p, cs, r, s0, Run(n + 2, 0, s0), Nothing(k1), s2, Entering(cs1, s2), Push(p.w, r, t, k), s1);
      ResultAfter(p, cs, r, s, Run(n, 0, s), Nothing(k), s0, Run(n + 2, 0, s0), Push(p.w, r, t, k), s1);
    }
  }

  lemma RanStop(p: Prog, cs: Cg, r: Rest, s: State, k: Flow, s1: State)
    requires Ran(p, cs, r, s, Nothing(k), s1)
    ensures Ran(p, cs, r, s, Outcome([], k, Limited), s1)
  {
  }

  lemma MakeSetup(p: Prog, cs: Cg, r: Rest)
    requires Ready(p, cs, r) && r.Limit?
    ensures Setup(p, cs, r, After(r, cs))
  {
    hide CompileRest, Continues;
    var own, n := LimitBlocks(cs, r.n), cs.nextBB;
    assert Fresh(own, n, n + 3) && Holds(own, n, EntryBlock(cs, r)) && Holds(own, n + 1, Goto(cs.scanEnd)) && Holds(own,
        n + 2, CountBlock(cs));
    OwnEmitted(p, cs, r, own, n + 3);
    VisitKeeps(r, cs);
  }

  lemma Enter(p: Prog, cs: Cg, r: Rest, s: State, t: Tuple, k: Flow) returns (s1: State)
    requires Ready(p, cs, r) && r.Limit? && Simulates(p, After(r, cs), r.next) && Pre(p, cs, r, s, t, k)
    ensures Post(p, cs, r, s, Push(p.w, r, t, k), s1)
  {
    hide Reaches, After, CompileRest, Simulates, Ran, EntryBlock, Matches, Calm;
    MakeSetup(p, cs, r);
    s1 := Carry(p, cs, r, After(r, cs), s, t, k);
    Enters(p, cs, r, s, k, cs.nextBB, Push(p.w, r, t, k), s1);
  }

  lemma LimitSimulates(p: Prog, cs: Cg, r: Rest)
    requires Ready(p, cs, r) && r.Limit? && Simulates(p, After(r, cs), r.next)
    ensures Simulates(p, cs, r)
  {
    hide Ready, Reaches, Result, Push, After, Pre;
    forall s, t, k | Pre(p, cs, r, s, t, k)
      ensures exists s1 :: Post(p, cs, r, s, Push(p.w, r, t, k), s1)
    {
      var s1 := Enter(p, cs, r, s, t, k);
    }
  }

  // ----- sort -----

  lemma SortEnter(p: Prog, cs: Cg, r: Rest, cs1: Cg, s: State, t: Tuple, k: Flow) returns (s1: State)
    requires Ready(p, cs, r) && r.Sort? && cs1 == After(r, cs) && Simulates(p, cs1, r.next) && Pre(p, cs, r, s, t, k)
    ensures Post(p, cs, r, s, Push(p.w, r, t, k), s1)
  {
    hide Reaches, CompileRest, Simulates, Ran;
    VisitKeeps(r, cs);
    assert Pre(p, cs1, r.next, s, t, k);
    s1 := PassOn(p, cs, r, cs1, s, t, k, t, k);
  }

  lemma SortSimulates(p: Prog, cs: Cg, r: Rest)
    requires Ready(p, cs, r) && r.Sort? && Simulates(p, After(r, cs), r.next)
    ensures Simulates(p, cs, r)
  {
    hide Ready, Reaches, Result, Push, After, Pre;
    forall s, t, k | Pre(p, cs, r, s, t, k)
      ensures exists s1 :: Post(p, cs, r, s, Push(p.w, r, t, k), s1)
    {
      var s1 := SortEnter(p, cs, r, After(r, cs), s, t, k);
    }
  }
}
