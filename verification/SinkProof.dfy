/** The two ends of a pipeline: a collected row, and a tuple materialized for a join. */
module SinkProof {
  import opened Storage
  import opened Ir
  import opened Runtime
  import opened Machine
  import opened Plan
  import opened Algebra
  import opened Codegen
  import opened Shape
  import opened Simulation

  function CollectType(ty: nat): nat {
    if ty == 7 then 2 else ty
  }

  // A register value of a collectable type converts to the element its tuple stands for.
  lemma ConvertMatches(g: Graph, q: QrValue, v: Val, s: State)
    requires MatchesOne(q, v, s) && q.ty in {0, 1, 2, 4, 5, 6, 7, 8}
    ensures Convert(g, s.rt, LocVal(q.loc, s), CollectType(q.ty)) == Some(OutOf(g, v))
  {
  }

  // The first i registers have been appended to the row buffer.
  function Buffered(g: Graph, s: State, t: Tuple, i: nat): State
    requires i <= |t|
  {
    s.(rt := s.rt.(tp := RowOf(g, t[..i])))
  }

  lemma {:induction false} RunCollectCode(w: World, regs: seq<QrValue>, t: Tuple, s: State, i: nat)
    requires Matches(regs, t, s) && s.rt.tp == [] && i <= |regs|
    requires forall j :: 0 <= j < |regs| ==> regs[j].ty in {0, 1, 2, 4, 5, 6, 7, 8}
    ensures Exec(w, CollectCode(regs, i), s) == Ok(Buffered(w.g, s, t, i))
  {
    if i == 0 {
      assert RowOf(w.g, t[..0]) == [];
    } else {
      RunCollectCode(w, regs, t, s, i - 1);
      ConvertMatches(w.g, regs[i - 1], t[i - 1], s);
      BufferMore(w, regs, t, s, i);
    }
  }

  lemma BufferMore(w: World, regs: seq<QrValue>, t: Tuple, s: State, i: nat)
    requires 0 < i <= |t| && |regs| == |t|
    requires Convert(w.g, s.rt, LocVal(regs[i - 1].loc, s), CollectType(regs[i - 1].ty)) == Some(OutOf(w.g, t[i - 1]))
    ensures Exec1(w, MatReg(regs[i - 1].loc, CollectType(regs[i - 1].ty)), Buffered(w.g, s, t, i - 1)) ==
            Ok(Buffered(w.g, s, t, i))
  {
    var s0 := Buffered(w.g, s, t, i - 1);
    var q := regs[i - 1];
    assert LocVal(q.loc, s0) == LocVal(q.loc, s);
    assert Convert(w.g, s0.rt, LocVal(q.loc, s0), CollectType(q.ty)) == Convert(w.g, s.rt, LocVal(q.loc, s),
                                                                                CollectType(q.ty));
    assert RowOf(w.g, t[..i]) == RowOf(w.g, t[..i - 1]) + [OutOf(w.g, t[i - 1])];
  }

  lemma CollectTypes(cs: Cg)
    requires Typed(Collect, TypesOf(cs.regs), true)
    ensures forall j :: 0 <= j < |cs.regs| ==> cs.regs[j].ty in {0, 1, 2, 4, 5, 6, 7, 8}
  {
    forall j | 0 <= j < |cs.regs|
      ensures cs.regs[j].ty in {0, 1, 2, 4, 5, 6, 7, 8}
    {
      assert TypesOf(cs.regs)[j] == cs.regs[j].ty;
    }
  }

  function CollectBlock(cs: Cg): Block {
    Block(CollectCode(cs.regs, |cs.regs|).Do(CollectTuple), Some(Br(cs.mainReturn)))
  }

  lemma CollectExec(p: Prog, cs: Cg, s: State, t: Tuple)
    requires Typed(Collect, TypesOf(cs.regs), true) && Matches(cs.regs, t, s) && s.rt.tp == []
    ensures Exec(p.w, CollectBlock(cs).code, s) == Ok(s.(rt := s.rt.(rows := s.rt.rows + [RowOf(p.w.g, t)], tp := [])))
  {
    hide Exec, Exec1, CollectCode, MatchesOne, RowOf;
    CollectTypes(cs);
    RunCollectCode(p.w, cs.regs, t, s, |cs.regs|);
    assert t[..|t|] == t;
    RowDone(p.w, Buffered(p.w.g, s, t, |t|));
    ExecThen(p.w, CollectCode(cs.regs, |cs.regs|), CollectTuple, s, Buffered(p.w.g, s, t, |t|),
             s.(rt := s.rt.(rows := s.rt.rows + [RowOf(p.w.g, t)], tp := [])));
  }

  lemma RowDone(w: World, s: State)
    ensures Exec1(w, CollectTuple, s) == Ok(s.(rt := CollectTp(s.rt)))
  {
  }

  lemma RunCollect(p: Prog, cs: Cg, s: State, t: Tuple, k: Flow) returns (s1: State)
    requires Typed(Collect, TypesOf(cs.regs), true) && Has(p, cs.nextBB, CollectBlock(cs))
    requires Matches(cs.regs, t, s) && Calm(p.w.g, cs.pipe, s, k)
    ensures Result(p, cs, Collect, s, Run(cs.nextBB, 0, s), Outcome([t], k, Back), s1)
  {
    hide Reaches, Exec, CollectCode, MatchesOne, RowOf;
    s1 := s.(rt := s.rt.(rows := s.rt.rows + [RowOf(p.w.g, t)], tp := []));
    CollectExec(p, cs, s, t);
    RunBlock(p, cs.nextBB, s);
    assert RowsOf(p.w.g, [t]) == [RowOf(p.w.g, t)];
  }

  // ----- the input of a join -----

  function Materialized(s: State, t: Tuple, i: nat): State
    requires i <= |t|
  {
    s.(rt := s.rt.(mat := t[..i]))
  }

  lemma {:induction false} RunEndCode(w: World, regs: seq<QrValue>, t: Tuple, s: State, i: nat)
    requires Matches(regs, t, s) && s.rt.mat == [] && i <= |regs|
    requires forall j :: 0 <= j < |regs| ==> regs[j].ty in {0, 1} && regs[j].loc.InReg?
    ensures Exec(w, EndCode(regs, i), s) == Ok(Materialized(s, t, i))
  {
    hide Exec1;
    if i > 0 {
      RunEndCode(w, regs, t, s, i - 1);
      assert MatchesOne(regs[i - 1], t[i - 1], s);
      EndMore(w, regs, t, s, i);
    }
  }

  function EndInstr(q: QrValue): Instr {
    if q.ty == 0 then MatNode(RegOf(q)) else MatRship(RegOf(q))
  }

  lemma EndMore(w: World, regs: seq<QrValue>, t: Tuple, s: State, i: nat)
    requires 0 < i <= |t| && |regs| == |t|
    requires MatchesOne(regs[i - 1], t[i - 1], s) && regs[i - 1].loc.InReg?
    ensures Exec1(w, EndInstr(regs[i - 1]), Materialized(s, t, i - 1)) == Ok(Materialized(s, t, i))
  {
    assert t[..i] == t[..i - 1] + [t[i - 1]];
  }

  function EndBlock(cs: Cg): Block {
    Block(EndCode(cs.regs, |cs.regs|).Do(CollectJoin(FrontJid(cs))), Some(Br(cs.mainReturn)))
  }

  lemma EndTypes(cs: Cg)
    requires Typed(End, TypesOf(cs.regs), false) && LayoutOk(cs, End)
    ensures forall j :: 0 <= j < |cs.regs| ==> cs.regs[j].ty in {0, 1} && cs.regs[j].loc.InReg?
  {
    forall j | 0 <= j < |cs.regs|
      ensures cs.regs[j].ty in {0, 1} && cs.regs[j].loc.InReg?
    {
      assert TypesOf(cs.regs)[j] == cs.regs[j].ty;
    }
  }

  lemma EndExec(p: Prog, cs: Cg, s: State, t: Tuple)
    requires Matches(cs.regs, t, s) && s.rt.mat == []
    requires forall j :: 0 <= j < |cs.regs| ==> cs.regs[j].ty in {0, 1} && cs.regs[j].loc.InReg?
    ensures Exec(p.w, EndBlock(cs).code, s) == Ok(s.(rt := CollectJoinTp(s.rt.(mat := t), FrontJid(cs))))
  {
    hide Exec, Exec1, EndCode, MatchesOne, CollectJoinTp;
    RunEndCode(p.w, cs.regs, t, s, |cs.regs|);
    assert t[..|t|] == t;
    JoinRow(p.w, FrontJid(cs), Materialized(s, t, |t|));
    ExecThen(p.w, EndCode(cs.regs, |cs.regs|), CollectJoin(FrontJid(cs)), s, Materialized(s, t, |t|),
             s.(rt := CollectJoinTp(s.rt.(mat := t), FrontJid(cs))));
  }

  lemma JoinRow(w: World, jid: nat, s: State)
    ensures Exec1(w, CollectJoin(jid), s) == Ok(s.(rt := CollectJoinTp(s.rt, jid)))
  {
  }

  lemma RunEnd(p: Prog, cs: Cg, s: State, t: Tuple, k: Flow) returns (s1: State)
    requires Typed(End, TypesOf(cs.regs), false) && LayoutOk(cs, End) && Has(p, cs.nextBB, EndBlock(cs))
    requires Matches(cs.regs, t, s) && Calm(p.w.g, cs.pipe, s, k)
    ensures Result(p, cs, End, s, Run(cs.nextBB, 0, s), Outcome([t], k, Back), s1)
  {
    hide Reaches, Exec, EndCode;
    EndTypes(cs);
    EndExec(p, cs, s, t);
    s1 := s.(rt := CollectJoinTp(s.rt.(mat := t), FrontJid(cs)));
    RunBlock(p, cs.nextBB, s);
  }

  // ----- both -----

  lemma MakeSetup(p: Prog, cs: Cg, r: Rest)
    requires Ready(p, cs, r) && EndsPipeline(r)
    ensures Has(p, cs.nextBB, if r.Collect? then CollectBlock(cs) else EndBlock(cs))
    ensures Has(p, cs.prevBB, Seal(Prev(cs), cs.nextBB))
  {
    hide CompileRest, CollectCode, EndCode;
    var blk := if r.Collect? then CollectBlock(cs) else EndBlock(cs);
    var own := map[cs.nextBB := blk];
    assert Holds(own, cs.nextBB, blk) && Fresh(own, cs.nextBB, cs.nextBB + 1);
    OwnEmitted(p, cs, r, own, cs.nextBB + 1);
  }

  lemma Enter(p: Prog, cs: Cg, r: Rest, s: State, t: Tuple, k: Flow) returns (s1: State)
    requires Ready(p, cs, r) && EndsPipeline(r) && Pre(p, cs, r, s, t, k)
    ensures Post(p, cs, r, s, Push(p.w, r, t, k), s1)
  {
    hide Reaches, CompileRest, Ran, Matches, Calm, CollectBlock, EndBlock, Result;
    MakeSetup(p, cs, r);
    if r.Collect? {
      s1 := RunCollect(p, cs, s, t, k);
    } else {
      s1 := RunEnd(p, cs, s, t, k);
    }
    Enters(p, cs, r, s, k, cs.nextBB, Outcome([t], k, Back), s1);
  }

  // The ends of a pipeline sink the tuple and go back for the next one.
  lemma SinkSimulates(p: Prog, cs: Cg, r: Rest)
    requires Ready(p, cs, r) && EndsPipeline(r)
    ensures Simulates(p, cs, r)
  {
    hide Ready, Reaches, Result, Push, Pre;
    forall s, t, k | Pre(p, cs, r, s, t, k)
      ensures exists s1 :: Post(p, cs, r, s, Push(p.w, r, t, k), s1)
    {
      var s1 := Enter(p, cs, r, s, t, k);
    }
  }
}
