/** Expand: the node at one end of the current relationship, if it exists and carries the label. */
module ExpandProof {
  import opened Storage
  import opened Ir
  import opened Runtime
  import opened Machine
  import opened Plan
  import opened Algebra
  import opened TupleAtATime
  import opened Codegen
  import opened Shape
  import opened Simulation

  function Load(cs: Cg, r: Rest): Code
    requires r.Expand?
  {
    Nil.Do(NodeById(EndReg(cs), RshipF(LastReg(cs), if r.out then 3 else 2)))
  }

  function EntryBlock(cs: Cg, r: Rest): Block
    requires r.Expand?
  {
    var n := cs.nextBB;
    if r.lbl == "" then Block(Load(cs, r), Some(CondBr(IsNull(EndReg(cs)), n + 2, n + 1)))
    else Block(Load(cs, r).Do(LookupLabel(cs.nextReg, cs.opId)), Some(CondBr(IsNull(EndReg(cs)), n + 2, n + 3)))
  }

  ghost predicate Setup(p: Prog, cs: Cg, r: Rest, cs1: Cg) {
    && r.Expand? && Visited(cs, r, cs1)
    && cs1.prevBB == cs.nextBB + 1 && cs1.mainReturn == cs.mainReturn && Prev(cs1) == EMPTY
    && cs1.regs == cs.regs + [QrValue(InReg(EndReg(cs)), 0)] && cs1.nextReg == cs.nextReg + 2
    && Has(p, cs.nextBB, EntryBlock(cs, r))
    && Has(p, cs.nextBB + 2, Goto(cs.mainReturn))
    && (r.lbl != "" ==> Has(p, cs.nextBB + 3, ExpandCheck(cs, cs.nextBB + 1, cs.nextBB + 2)))
    && Has(p, cs.prevBB, Seal(Prev(cs), cs.nextBB))
  }

  // The node the tuple's relationship leads to.
  function Found(p: Prog, r: Rest, id: nat): Option<nat>
    requires r.Expand?
  {
    p.w.g.nodeById(if r.out then p.w.g.rship(id).dst else p.w.g.rship(id).src)
  }

  predicate Passes(p: Prog, r: Rest, id: nat)
    requires r.Expand?
  {
    Found(p, r, id).Some? && (r.lbl == "" || p.w.g.node(Found(p, r, id).value).labelCode == p.w.g.code(r.lbl))
  }

  function Loaded(p: Prog, cs: Cg, r: Rest, s: State, id: nat): State
    requires r.Expand?
  {
    var s0 := Set(s, EndReg(cs), Pointer(Found(p, r, id)));
    if r.lbl == "" then s0 else Set(s0, cs.nextReg, IntV(p.w.g.code(r.lbl)))
  }

  lemma LoadExec(p: Prog, cs: Cg, r: Rest, s: State, id: nat)
    requires r.Expand? && RegHas(s, LastReg(cs), RshipV(id)) && (r.lbl != "" ==> ArgAt(p.w, cs.opId) == LabelArg(r.lbl))
    ensures Exec(p.w, EntryBlock(cs, r).code, s) == Ok(Loaded(p, cs, r, s, id))
  {
    assert Exec(p.w, Load(cs, r), s) == Ok(Set(s, EndReg(cs), Pointer(Found(p, r, id))));
  }

  // The null test.
  lemma RunEntry(p: Prog, cs: Cg, r: Rest, s: State, id: nat) returns (s1: State)
    requires r.Expand? && Has(p, cs.nextBB, EntryBlock(cs, r)) && RegHas(s, LastReg(cs), RshipV(id))
             && LastReg(cs) < cs.nextReg
    requires r.lbl != "" ==> ArgAt(p.w, cs.opId) == LabelArg(r.lbl)
    ensures Scratch(s, s1, cs.nextReg) && RegHas(s1, EndReg(cs), Pointer(Found(p, r, id)))
    ensures r.lbl != "" ==> RegHas(s1, cs.nextReg, IntV(p.w.g.code(r.lbl)))
    ensures var n := cs.nextBB;
            Reaches(p, Run(n, 0, s),
                    Run(if Found(p, r, id).None? then n + 2 else if r.lbl == "" then n + 1 else n + 3, 0, s1))
  {
    hide Reaches, Exec, Exec1;
    s1 := Loaded(p, cs, r, s, id);
    LoadExec(p, cs, r, s, id);
    RunBlock(p, cs.nextBB, s);
  }

  // The null test and the label test lead to the open block or back.
  lemma RunTests(p: Prog, cs: Cg, r: Rest, cs1: Cg, s: State, id: nat) returns (s1: State)
    requires Setup(p, cs, r, cs1) && RegHas(s, LastReg(cs), RshipV(id)) && LastReg(cs) < cs.nextReg
    requires r.lbl != "" ==> ArgAt(p.w, cs.opId) == LabelArg(r.lbl)
    ensures Scratch(s, s1, cs.nextReg)
    ensures Reaches(p, Run(cs.nextBB, 0, s), Run(if Passes(p, r, id) then cs.nextBB + 1 else cs.nextBB + 2, 0, s1))
    ensures Passes(p, r, id) ==> RegHas(s1, EndReg(cs), NodeV(Found(p, r, id).value))
  {
    hide Reaches, EntryBlock, Visited;
    var n := cs.nextBB;
    s1 := RunEntry(p, cs, r, s, id);
    if r.lbl != "" && Found(p, r, id).Some? {
      RunBlock(p, n + 3, s1);
      Trans(p, Run(n, 0, s), Run(n + 3, 0, s1), Run(if Passes(p, r, id) then n + 1 else n + 2, 0, s1));
    }
  }

  lemma Table(cs: Cg, r: Rest)
    requires r.Expand?
    ensures var own, n := ExpandBlocks(cs, r.out, r.lbl), cs.nextBB;
            && Fresh(own, n, n + 4)
            && Holds(own, n, EntryBlock(cs, r))
            && Holds(own, n + 1, EMPTY)
            && Holds(own, n + 2, Goto(cs.mainReturn))
            && (r.lbl != "" ==> Holds(own, n + 3, ExpandCheck(cs, n + 1, n + 2)))
  {
  }

  lemma MakeSetup(p: Prog, cs: Cg, r: Rest)
    requires Ready(p, cs, r) && r.Expand?
    ensures Setup(p, cs, r, After(r, cs))
  {
    hide ExpandBlocks, CompileRest, Continues;
    Table(cs, r);
    OwnEmitted(p, cs, r, ExpandBlocks(cs, r.out, r.lbl), cs.nextBB + 4);
    VisitKeeps(r, cs);
  }

  lemma Inputs(p: Prog, cs: Cg, r: Rest, s: State, t: Tuple)
    requires Ready(p, cs, r) && r.Expand? && Matches(cs.regs, t, s)
    ensures t != [] && t[|t| - 1].RshipV? && RegHas(s, LastReg(cs), t[|t| - 1])
    ensures LastReg(cs) < cs.nextReg && (r.lbl != "" ==> ArgAt(p.w, cs.opId) == LabelArg(r.lbl))
  {
    hide CompileRest;
    if r.lbl != "" {
      ReadArg(p, cs, r);
    }
    assert MatchesOne(cs.regs[|cs.regs| - 1], t[|t| - 1], s);
  }

  // From the entry block on.
  lemma Carry(p: Prog, cs: Cg, r: Rest, cs1: Cg, s: State, t: Tuple, k: Flow) returns (s1: State)
    requires Setup(p, cs, r, cs1) && Simulates(p, cs1, r.next) && Pre(p, cs, r, s, t, k) && LastReg(cs) < cs.nextReg
    requires t != [] && t[|t| - 1].RshipV? && RegHas(s, LastReg(cs), t[|t| - 1])
    requires r.lbl != "" ==> ArgAt(p.w, cs.opId) == LabelArg(r.lbl)
    ensures Result(p, cs, r, s, Run(cs.nextBB, 0, s), PushAll(p.w, r.next, ExpandTuples(p.w.g, r, t), k), s1)
  {
    hide Reaches, Push, Simulates, Ran, Result, EntryBlock;
    var n, id := cs.nextBB, t[|t| - 1].id;
    var s0 := RunTests(p, cs, r, cs1, s, id);
    OwnScratch(p, cs, r, s, t, k, s0);
    var o := PushAll(p.w, r.next, ExpandTuples(p.w.g, r, t), k);
    if Passes(p, r, id) {
      var t1 := t + [NodeV(Found(p, r, id).value)];
      PushAllOne(p.w, r.next, t1, k);
      assert Pre(p, cs1, r.next, s0, t1, k);
      s1 := PassOn(p, cs, r, cs1, s0, t, k, t1, k);
      ResultAfter(p, cs, r, s, Run(n, 0, s), Nothing(k), s0, Run(n + 1, 0, s0), o, s1);
    } else {
      Drop(p, cs, r, s0, t, k, n + 2);
      s1 := s0;
      ResultAfter(p, cs, r, s, Run(n, 0, s), Nothing(k), s0, Run(n + 2, 0, s0), o, s1);
    }
  }

  lemma Enter(p: Prog, cs: Cg, r: Rest, s: State, t: Tuple, k: Flow) returns (s1: State)
    requires Ready(p, cs, r) && r.Expand? && Simulates(p, After(r, cs), r.next) && Pre(p, cs, r, s, t, k)
    ensures Post(p, cs, r, s, Push(p.w, r, t, k), s1)
  {
    hide Reaches, After, CompileRest, Simulates, Ran, EntryBlock, Matches, Calm;
    MakeSetup(p, cs, r);
    Inputs(p, cs, r, s, t);
    s1 := Carry(p, cs, r, After(r, cs), s, t, k);
    Enters(p, cs, r, s, k, cs.nextBB, Push(p.w, r, t, k), s1);
  }

  lemma ExpandSimulates(p: Prog, cs: Cg, r: Rest)
    requires Ready(p, cs, r) && r.Expand? && Simulates(p, After(r, cs), r.next)
    ensures Simulates(p, cs, r)
  {
    hide Ready, Reaches, Result, Push, After, Pre;
    forall s, t, k | Pre(p, cs, r, s, t, k)
      ensures exists s1 :: Post(p, cs, r, s, Push(p.w, r, t, k), s1)
    {
      var s1 := Enter(p, cs, r, s, t, k);
    }
  }
}
