/** The variable-hop traversal: the relationships are gathered into one shared list, which the loop
    then walks. An activation yields what is in the list and then what it gathers for its own node. The
    list is empty outside the loop, unless a Limit below the loop has left it half-way. */
module VariableProof {
  import opened Storage
  import opened Ir
  import opened Runtime
  import opened Machine
  import opened Plan
  import opened Algebra
  import opened TupleAtATime
  import opened Codegen
  import opened Shape
  import opened Simulation
  import ForeachProof

  function HeadBlock(cs: Cg): Block {
    Block(Nil.Do(FevEnd(cs.nextReg + 2)), Some(CondBr(Eq(R(cs.nextReg + 2), K(1)), cs.nextBB + 1, cs.nextBB + 5)))
  }

  function BodyBlock(cs: Cg): Block {
    Block(Nil.Do(FevNext(LoopReg(cs))), Some(Br(cs.nextBB + 3)))
  }

  ghost predicate Setup(p: Prog, cs: Cg, r: Rest, cs1: Cg) {
    && r.Foreach? && IsVariable(r) && !HasVar(r.next) && Visited(cs, r, cs1)
    && cs1.prevBB == cs.nextBB + 3 && cs1.mainReturn == cs.nextBB + 4 && Prev(cs1) == EMPTY
    && cs1.regs == cs.regs + [QrValue(InReg(LoopReg(cs)), 1)] && cs1.nextReg == cs.nextReg + 3
    && Has(p, cs.nextBB + 1, Goto(cs.mainReturn))
    && Has(p, cs.nextBB + 4, HeadBlock(cs))
    && Has(p, cs.nextBB + 5, BodyBlock(cs))
  }

  // At the loop head with the list from position i on still to come.
  ghost predicate AtHead(p: Prog, cs: Cg, r: Rest, s: State, t: Tuple, k: Flow, list: seq<nat>, i: nat)
    requires r.Foreach?
  {
    Holding(p, cs, r, s, t, k) && s.rt.fevList == list && s.rt.fevPos == i <= |list|
  }

  lemma LoopEnd(p: Prog, cs: Cg, r: Rest, cs1: Cg, s: State, t: Tuple, k: Flow, list: seq<nat>) returns (s1: State)
    requires Setup(p, cs, r, cs1) && AtHead(p, cs, r, s, t, k, list, |list|)
    ensures Result(p, cs, r, s, Run(cs.nextBB + 4, 0, s), Nothing(k.(left := [])), s1)
  {
    hide Reaches;
    var n := cs.nextBB;
    s1 := Set(s, cs.nextReg + 2, IntV(1)).(rt := s.rt.(fevList := []));
    assert Exec(p.w, HeadBlock(cs).code, s) == Ok(s1);
    RunBlock(p, n + 4, s);
    RunGoto(p, n + 1, cs.mainReturn, s1);
    Trans(p, Run(n + 4, 0, s), Run(n + 1, 0, s1), Run(cs.mainReturn, 0, s1));
    RanQuiet(p, cs, r, s, k.(left := []), s1);
  }

  // The end test fails and the next relationship is fetched.
  lemma RunFetch(p: Prog, cs: Cg, s: State, list: seq<nat>, i: nat) returns (s1: State)
    requires Has(p, cs.nextBB + 4, HeadBlock(cs)) && Has(p, cs.nextBB + 5, BodyBlock(cs))
    requires s.rt.fevList == list && s.rt.fevPos == i < |list|
    ensures Reaches(p, Run(cs.nextBB + 4, 0, s), Run(cs.nextBB + 3, 0, s1))
    ensures s1.cells == s.cells && s1.rt == s.rt.(fevPos := i + 1) && RegsKept(s, s1, cs.nextReg)
    ensures RegHas(s1, LoopReg(cs), RshipV(list[i]))
  {
    hide Reaches;
    var n := cs.nextBB;
    var s0 := Set(s, cs.nextReg + 2, IntV(0));
    s1 := Set(s0, LoopReg(cs), RshipV(list[i])).(rt := s.rt.(fevPos := i + 1));
    assert Exec(p.w, HeadBlock(cs).code, s) == Ok(s0);
    RunBlock(p, n + 4, s);
    assert Exec(p.w, BodyBlock(cs).code, s0) == Ok(s1);
    RunBlock(p, n + 5, s0);
    Trans(p, Run(n + 4, 0, s), Run(n + 5, 0, s0), Run(n + 3, 0, s1));
  }

  lemma Fetch(p: Prog, cs: Cg, r: Rest, cs1: Cg, s: State, t: Tuple, k: Flow, list: seq<nat>, i: nat)
    returns (s1: State)
    requires Setup(p, cs, r, cs1) && AtHead(p, cs, r, s, t, k, list, i) && i < |list|
    ensures Reaches(p, Run(cs.nextBB + 4, 0, s), Run(cs.nextBB + 3, 0, s1))
    ensures Ran(p, cs, r, s, Nothing(k), s1) && AtHead(p, cs, r, s1, t, k, list, i + 1)
            && RegHas(s1, LoopReg(cs), RshipV(list[i]))
  {
    hide Reaches, HeadBlock, BodyBlock;
    s1 := RunFetch(p, cs, s, list, i);
    Own(p, cs, r, s, t, k, s1);
  }

  lemma Consume(p: Prog, cs: Cg, r: Rest, cs1: Cg, s: State, t: Tuple, k: Flow, list: seq<nat>, i: nat, id: nat)
    returns (s1: State)
    requires Setup(p, cs, r, cs1) && Simulates(p, cs1, r.next)
    requires AtHead(p, cs, r, s, t, k, list, i) && RegHas(s, LoopReg(cs), RshipV(id))
    ensures var o := Push(p.w, r.next, t + [RshipV(id)], k);
            && Ran(p, cs, r, s, o, s1)
            && (o.exit == Back ==>
                  Reaches(p, Run(cs.nextBB + 3, 0, s), Run(cs.nextBB + 4, 0, s1))
                    && AtHead(p, cs, r, s1, t, o.k, list, i))
            && (o.exit != Back ==> Result(p, cs, r, s, Run(cs.nextBB + 3, 0, s), o, s1))
  {
    hide Reaches, Push, Ran, Result;
    var t1 := t + [RshipV(id)];
    assert Pre(p, cs1, r.next, s, t1, k);
    s1 := Below(p, cs, r, cs1, s, t, k, t1, k);
  }

  /** The loop enumerates the list in order, each relationship once, and empties it. */
  lemma {:induction false} Loop(p: Prog, cs: Cg, r: Rest, cs1: Cg, s: State, t: Tuple, k: Flow, list: seq<nat>, i: nat)
    returns (s1: State)
    requires Setup(p, cs, r, cs1) && Simulates(p, cs1, r.next) && AtHead(p, cs, r, s, t, k, list, i)
    ensures Result(p, cs, r, s, Run(cs.nextBB + 4, 0, s), Emptied(PushAll(p.w, r.next, IdTuples(t, list[i..]), k)), s1)
    decreases |list| - i
  {
    hide Reaches, Push, Ran, Result, Simulates;
    var n, w := cs.nextBB, p.w;
    if i == |list| {
      s1 := LoopEnd(p, cs, r, cs1, s, t, k, list);
    } else {
      var s2 := Fetch(p, cs, r, cs1, s, t, k, list, i);
      var t1, tail := t + [RshipV(list[i])], IdTuples(t, list[i + 1..]);
      var o := Push(w, r.next, t1, k);
      var s3 := Consume(p, cs, r, cs1, s2, t, k, list, i + 1, list[i]);
      assert list[i..][1..] == list[i + 1..];
      assert IdTuples(t, list[i..]) == [t1] + tail;
      PushAllCons(w, r.next, t1, tail, k);
      var rest := Emptied(PushAll(w, r.next, tail, o.k));
      if o.exit == Back {
        s1 := Loop(p, cs, r, cs1, s3, t, o.k, list, i + 1);
        ResultAfter(p, cs, r, s2, Run(n + 3, 0, s2), o, s3, Run(n + 4, 0, s3), rest, s1);
      } else {
        s1 := s3;
      }
      ResultAfter(p, cs, r, s, Run(n + 4, 0, s), Nothing(k), s2, Run(n + 3, 0, s2),
                  Emptied(PushAll(w, r.next, [t1] + tail, k)), s1);
    }
  }

  // ----- the operator -----

  function EntryBlock(cs: Cg, r: Rest): Block
    requires r.Foreach?
  {
    Block(ForeachHead(cs, r.dir).Do(FevRetrieve(LastReg(cs), cs.nextReg, r.min, r.max)), Some(Br(cs.nextBB + 4)))
  }

  lemma Table(cs: Cg, r: Rest)
    requires r.Foreach?
    ensures var own, n := VariableBlocks(cs, r.dir, r.min, r.max), cs.nextBB;
            && Fresh(own, n, n + 7)
            && Holds(own, n, EntryBlock(cs, r))
            && Holds(own, n + 1, Goto(cs.mainReturn))
            && Holds(own, n + 3, EMPTY)
            && Holds(own, n + 4, HeadBlock(cs))
            && Holds(own, n + 5, BodyBlock(cs))
  {
  }

  lemma MakeSetup(p: Prog, cs: Cg, r: Rest)
    requires Ready(p, cs, r) && r.Foreach? && IsVariable(r)
    ensures Setup(p, cs, r, After(r, cs))
    ensures Has(p, cs.nextBB, EntryBlock(cs, r)) && Has(p, cs.prevBB, Seal(Prev(cs), cs.nextBB))
  {
    hide VariableBlocks, ForeachHead, CompileRest, Continues;
    Table(cs, r);
    OwnEmitted(p, cs, r, VariableBlocks(cs, r.dir, r.min, r.max), cs.nextBB + 7);
    VisitKeeps(r, cs);
  }

  // The list as the call leaves it.
  function Filling(p: Prog, r: Rest, t: Tuple, k: Flow): Flow
    requires r.Foreach?
  {
    k.(left := k.left + Gathered(p.w.g, r, t))
  }

  function ListFilled(p: Prog, r: Rest, s: State, t: Tuple): State
    requires r.Foreach?
  {
    s.(rt := s.rt.(fevList := s.rt.fevList + Gathered(p.w.g, r, t), fevPos := 0))
  }

  lemma GatherExec(p: Prog, cs: Cg, r: Rest, s: State, s0: State, t: Tuple)
    requires r.Foreach? && t != [] && t[|t| - 1].NodeV? && Exec(p.w, ForeachHead(cs, r.dir), s) == Ok(s0)
    requires RegHas(s0, LastReg(cs), t[|t| - 1]) && RegHas(s0, cs.nextReg, IntV(p.w.g.code(r.lbl)))
    ensures Exec(p.w, EntryBlock(cs, r).code, s) == Ok(ListFilled(p, r, s0, t))
  {
    hide ForeachHead, Exec, Exec1;
    var call := FevRetrieve(LastReg(cs), cs.nextReg, r.min, r.max);
    RetrieveExec(p, cs, r, s0, t);
    ExecThen(p.w, ForeachHead(cs, r.dir), call, s, s0, ListFilled(p, r, s0, t));
  }

  lemma RetrieveExec(p: Prog, cs: Cg, r: Rest, s: State, t: Tuple)
    requires r.Foreach? && t != [] && t[|t| - 1].NodeV?
    requires RegHas(s, LastReg(cs), t[|t| - 1]) && RegHas(s, cs.nextReg, IntV(p.w.g.code(r.lbl)))
    ensures Exec1(p.w, FevRetrieve(LastReg(cs), cs.nextReg, r.min, r.max), s) == Ok(ListFilled(p, r, s, t))
  {
  }

  lemma Gather(p: Prog, cs: Cg, r: Rest, s: State, t: Tuple, k: Flow) returns (s1: State)
    requires r.Foreach? && IsVariable(r) && LayoutOk(cs, r) && Holding(p, cs, r, s, t, k) && LastReg(cs) < cs.nextReg
    requires t != [] && t[|t| - 1].NodeV? && RegHas(s, LastReg(cs), t[|t| - 1])
             && ArgAt(p.w, cs.opId) == LabelArg(r.lbl)
    ensures Exec(p.w, EntryBlock(cs, r).code, s) == Ok(s1) && Ran(p, cs, r, s, Nothing(Filling(p, r, t, k)), s1)
    ensures AtHead(p, cs, r, s1, t, Filling(p, r, t, k), Filling(p, r, t, k).left, 0)
  {
    hide ForeachHead, Exec, EntryBlock, Gathered, LocOk;
    var s0 := ForeachProof.RunEntry(p, cs, r, s, t, k);
    GatherExec(p, cs, r, s, s0, t);
    s1 := ListFilled(p, r, s0, t);
    RanQuiet(p, cs, r, s0, Filling(p, r, t, k), s1);
    MatchesKept(cs, r, s0, s1, t);
    RanSeq(p, cs, r, s, Nothing(k), s0, Nothing(Filling(p, r, t, k)), s1);
  }

  lemma Start(p: Prog, cs: Cg, r: Rest, s: State, t: Tuple, k: Flow) returns (s1: State)
    requires Ready(p, cs, r) && r.Foreach? && IsVariable(r) && Pre(p, cs, r, s, t, k)
    ensures Reaches(p, Entering(cs, s), Run(cs.nextBB + 4, 0, s1))
    ensures Ran(p, cs, r, s, Nothing(Filling(p, r, t, k)), s1)
    ensures AtHead(p, cs, r, s1, t, Filling(p, r, t, k), Filling(p, r, t, k).left, 0)
  {
    hide Reaches, After, CompileRest, Setup, Exec, ForeachHead, Ran, Matches, Calm, AtHead;
    var n := cs.nextBB;
    MakeSetup(p, cs, r);
    ForeachProof.Inputs(p, cs, r, s, t);
    s1 := Gather(p, cs, r, s, t, k);
    RunBlock(p, n, s);
    Leave(p, cs, n, s);
    Trans(p, Entering(cs, s), Run(n, 0, s), Run(n + 4, 0, s1));
  }

  lemma Enter(p: Prog, cs: Cg, r: Rest, s: State, t: Tuple, k: Flow) returns (s1: State)
    requires Ready(p, cs, r) && r.Foreach? && IsVariable(r) && Simulates(p, After(r, cs), r.next)
             && Pre(p, cs, r, s, t, k)
    ensures Post(p, cs, r, s, Push(p.w, r, t, k), s1)
  {
    MakeSetup(p, cs, r);
    hide Reaches, After, CompileRest, Setup, Pre, Simulates, Ran, AtHead, PushAll;
    var s0 := Start(p, cs, r, s, t, k);
    var k0 := Filling(p, r, t, k);
    s1 := Loop(p, cs, r, After(r, cs), s0, t, k0, k0.left, 0);
    assert k0.left[0..] == k0.left;
    ResultAfter(p, cs, r, s, Entering(cs, s), Nothing(k0), s0, Run(cs.nextBB + 4, 0, s0), Push(p.w, r, t, k), s1);
  }

  lemma VariableSimulates(p: Prog, cs: Cg, r: Rest)
    requires Ready(p, cs, r) && r.Foreach? && IsVariable(r) && Simulates(p, After(r, cs), r.next)
    ensures Simulates(p, cs, r)
  {
    hide Ready, Reaches, Result, Push, After, Pre;
    forall s, t, k | Pre(p, cs, r, s, t, k)
      ensures exists s1 :: Post(p, cs, r, s, Push(p.w, r, t, k), s1)
    {
      var s1 := Enter(p, cs, r, s, t, k);
    }
  }
}
