/** Projections: every expression writes a value or a handle to a cell of its own; handles come from
    one counter and never alias, so when the row is collected each cell still stands for the
    property it was projected from. */
module ProjectProof {
  import opened Storage
  import opened Ir
  import opened Runtime
  import opened Machine
  import opened Plan
  import opened Algebra
  import opened Codegen
  import opened Shape
  import opened Simulation

  // ----- one projection call -----

  // Tables only grow: what handles below the counter stand for stays.
  ghost predicate TablesGrow(a: Rt, b: Rt) {
    && a.ctr <= b.ctr
    && (forall h :: h in a.strs && h < a.ctr ==> h in b.strs && b.strs[h] == a.strs[h])
    && (forall h :: h in a.u64s && h < a.ctr ==> h in b.u64s && b.u64s[h] == a.u64s[h])
    && (forall h :: h in a.times && h < a.ctr ==> h in b.times && b.times[h] == a.times[h])
  }

  // A handle that was handed out by the counter.
  predicate Issued(rt: Rt, x: Val) {
    x.IntV? ==> x.n < rt.ctr
  }

  predicate SameRest(a: Rt, b: Rt) {
    && b.iters == a.iters && b.fevList == a.fevList && b.fevPos == a.fevPos
    && b.rows == a.rows && b.tp == a.tp && b.mat == a.mat && b.rhs == a.rhs
  }

  // The call delivers the property under the key, or raises if it is missing or of another type.
  lemma DeliverFetches(rt: Rt, d: Desc, e: PrExpr, isNode: bool)
    requires e.ftype != FBoolean && e.ftype != FDouble && (!isNode ==> e.ftype != FUint64)
    ensures var res := Deliver(rt, d, e.key, e.ftype, isNode);
            && TablesGrow(rt, res.rt) && SameRest(rt, res.rt) && res.rt.descs == rt.descs && res.rt.rdescs == rt.rdescs
            && (match Fetch(d, e)
                case Some(v) => res.Wrote? && CellMeans(res.rt, res.v, TypeId(e.ftype), v) && Issued(res.rt, res.v)
                case None => res.Threw?)
  {
  }

  function Applied(w: World, rt: Rt, e: PrExpr, v: Val, ty: nat): Pexpr
    requires if ty == 0 then v.NodeV? else v.RshipV?
  {
    if ty == 0 then ApplyNode(w.g, rt, e.key, e.ftype, v.p) else ApplyRship(w.g, rt, e.key, e.ftype, v.id)
  }

  lemma ApplyFetches(w: World, rt: Rt, e: PrExpr, t: Tuple, ty: nat)
    requires CacheOk(w.g, rt) && e.id < |t| && ty in {0, 1} && Kind(ty, t[e.id])
    requires e.ftype != FBoolean && e.ftype != FDouble && (ty == 1 ==> e.ftype != FUint64)
    ensures var res := Applied(w, rt, e, t[e.id], ty);
            && TablesGrow(rt, res.rt) && SameRest(rt, res.rt) && CacheOk(w.g, res.rt)
            && (match ProjectOne(w.g, e, t)
                case Some(v) => res.Wrote? && CellMeans(res.rt, res.v, TypeId(e.ftype), v) && Issued(res.rt, res.v)
                case None => res.Threw?)
  {
    if ty == 0 {
      NodeFetches(w.g, rt, e, t[e.id].p);
    } else {
      RshipFetches(w.g, rt, e, t[e.id].id);
    }
    hide ApplyNode, ApplyRship, Fetch, TablesGrow, CellMeans, Issued, SameRest, CacheOk;
  }

  // A description is fetched into the cache before it is used.
  lemma FetchedNode(g: Graph, rt: Rt, n: nat)
    requires CacheOk(g, rt)
    ensures CacheOk(g, FetchNode(g, rt, n)) && SameRest(rt, FetchNode(g, rt, n)) && SameTables(rt, FetchNode(g, rt, n))
    ensures n in FetchNode(g, rt, n).descs && FetchNode(g, rt, n).descs[n] == g.nodeDesc(n)
  {
  }

  lemma FetchedRship(g: Graph, rt: Rt, r: nat)
    requires CacheOk(g, rt)
    ensures CacheOk(g, FetchRship(g, rt, r)) && SameRest(rt, FetchRship(g, rt, r))
            && SameTables(rt, FetchRship(g, rt, r))
    ensures r in FetchRship(g, rt, r).rdescs && FetchRship(g, rt, r).rdescs[r] == g.rshipDesc(r)
  {
  }

  lemma CacheSame(g: Graph, a: Rt, b: Rt)
    requires CacheOk(g, a) && b.descs == a.descs && b.rdescs == a.rdescs
    ensures CacheOk(g, b)
  {
  }

  lemma GrowSame(a: Rt, b: Rt, c: Rt)
    requires SameTables(a, b) && TablesGrow(b, c)
    ensures TablesGrow(a, c)
  {
  }

  lemma NodeFetches(g: Graph, rt: Rt, e: PrExpr, p: nat)
    requires CacheOk(g, rt) && e.ftype != FBoolean && e.ftype != FDouble
    ensures var res := ApplyNode(g, rt, e.key, e.ftype, p);
            && TablesGrow(rt, res.rt) && SameRest(rt, res.rt) && CacheOk(g, res.rt)
            && (match Fetch(g.nodeDesc(g.node(p).id), e)
                case Some(v) => res.Wrote? && CellMeans(res.rt, res.v, TypeId(e.ftype), v) && Issued(res.rt, res.v)
                case None => res.Threw?)
  {
    hide Deliver, Fetch, CellMeans, TablesGrow, CacheOk, FetchNode, Issued, SameTables;
    var id := g.node(p).id;
    var rt1 := FetchNode(g, rt, id);
    FetchedNode(g, rt, id);
    var res := Deliver(rt1, rt1.descs[id], e.key, e.ftype, true);
    DeliverFetches(rt1, rt1.descs[id], e, true);
    CacheSame(g, rt1, res.rt);
    GrowSame(rt, rt1, res.rt);
  }

  lemma RshipFetches(g: Graph, rt: Rt, e: PrExpr, r: nat)
    requires CacheOk(g, rt) && e.ftype != FBoolean && e.ftype != FDouble && e.ftype != FUint64
    ensures var res := ApplyRship(g, rt, e.key, e.ftype, r);
            && TablesGrow(rt, res.rt) && SameRest(rt, res.rt) && CacheOk(g, res.rt)
            && (match Fetch(g.rshipDesc(g.rship(r).id), e)
                case Some(v) => res.Wrote? && CellMeans(res.rt, res.v, TypeId(e.ftype), v) && Issued(res.rt, res.v)
                case None => res.Threw?)
  {
    hide Deliver, Fetch, CellMeans, TablesGrow, CacheOk, FetchRship, Issued, SameTables;
    var id := g.rship(r).id;
    var rt1 := FetchRship(g, rt, id);
    FetchedRship(g, rt, id);
    var res := Deliver(rt1, rt1.rdescs[id], e.key, e.ftype, false);
    DeliverFetches(rt1, rt1.rdescs[id], e, false);
    CacheSame(g, rt1, res.rt);
    GrowSame(rt, rt1, res.rt);
  }

  // ----- all of them -----

  // The cells of the first i expressions stand for their values.
  ghost predicate Filled(w: World, cs: Cg, es: seq<PrExpr>, t: Tuple, s: State, i: nat)
    requires i <= |es|
  {
    forall j :: 0 <= j < i && es[j].ftype != FBoolean ==>
      var c := CellOf(cs, Pv(j + 1));
      && ProjectOne(w.g, es[j], t).Some? && c in s.cells && Issued(s.rt, s.cells[c])
      && CellMeans(s.rt, s.cells[c], TypeId(es[j].ftype), ProjectOne(w.g, es[j], t).value)
  }

  // Nothing else has changed.
  ghost predicate Kept(w: World, cs: Cg, s: State, s1: State) {
    && s1.regs == s.regs && SameRest(s.rt, s1.rt) && CacheOk(w.g, s1.rt)
    && forall c :: c in s.cells && !(c.pipe == cs.pipe && c.kind.Pv?) ==> c in s1.cells && s1.cells[c] == s.cells[c]
  }

  ghost predicate CodeOk(cs: Cg, es: seq<PrExpr>, types: seq<nat>) {
    && types == TypesOf(cs.regs)
    && (forall j :: 0 <= j < |es| ==> ExprOk(es[j], types) && KeyAt(cs, j) == es[j].key)
    && (forall j :: 0 <= j < |cs.regs| && cs.regs[j].ty in {0, 1} ==> cs.regs[j].loc.InReg?)
  }

  predicate AllFetched(w: World, es: seq<PrExpr>, t: Tuple, i: nat)
    requires i <= |es|
  {
    forall j :: 0 <= j < i ==> ProjectOne(w.g, es[j], t).Some?
  }

  // One more cell is filled; the handles issued before are not touched.
  lemma FillOne(w: World, cs: Cg, es: seq<PrExpr>, t: Tuple, s: State, i: nat, res: Pexpr)
    requires 0 < i <= |es| && Filled(w, cs, es, t, s, i - 1) && es[i - 1].ftype != FBoolean
    requires res.Wrote? && TablesGrow(s.rt, res.rt) && ProjectOne(w.g, es[i - 1], t).Some?
    requires CellMeans(res.rt, res.v, TypeId(es[i - 1].ftype), ProjectOne(w.g, es[i - 1], t).value)
             && Issued(res.rt, res.v)
    ensures Filled(w, cs, es, t, s.(rt := res.rt, cells := s.cells[CellOf(cs, Pv(i)) := res.v]), i)
  {
    hide ProjectOne;
    var s1 := s.(rt := res.rt, cells := s.cells[CellOf(cs, Pv(i)) := res.v]);
    forall j | 0 <= j < i && es[j].ftype != FBoolean
      ensures var c := CellOf(cs, Pv(j + 1));
              && ProjectOne(w.g, es[j], t).Some? && c in s1.cells && Issued(s1.rt, s1.cells[c])
              && CellMeans(s1.rt, s1.cells[c], TypeId(es[j].ftype), ProjectOne(w.g, es[j], t).value)
    {
    }
  }

  lemma {:induction false} RunExprs(w: World, cs: Cg, es: seq<PrExpr>, types: seq<nat>, t: Tuple, s: State, i: nat)
    returns (s1: State)
    requires CodeOk(cs, es, types) && Matches(cs.regs, t, s) && CacheOk(w.g, s.rt) && i <= |es|
    ensures Kept(w, cs, s, s1)
    ensures AllFetched(w, es, t, i) ==> Exec(w, ProjectCode(cs, es, i), s) == Ok(s1) && Filled(w, cs, es, t, s1, i)
    ensures !AllFetched(w, es, t, i) ==> Exec(w, ProjectCode(cs, es, i), s) == Raise(s1)
  {
    hide Exec1, ProjectOne, TablesGrow, Issued, CellMeans;
    if i == 0 {
      s1 := s;
    } else {
      var e := es[i - 1];
      var s0 := RunExprs(w, cs, es, types, t, s, i - 1);
      assert ExprOk(e, types) && types[e.id] == cs.regs[e.id].ty;
      if e.ftype == FBoolean {
        s1 := s0;
        BooleanFetched(w, e, t);
      } else if !AllFetched(w, es, t, i - 1) {
        s1 := s0;
      } else {
        assert MatchesOne(cs.regs[e.id], t[e.id], s);
        ApplyFetches(w, s0.rt, e, t, cs.regs[e.id].ty);
        var res := Applied(w, s0.rt, e, t[e.id], cs.regs[e.id].ty);
        if res.Wrote? {
          s1 := s0.(rt := res.rt, cells := s0.cells[CellOf(cs, Pv(i)) := res.v]);
          FillOne(w, cs, es, t, s0, i, res);
        } else {
          s1 := s0.(rt := res.rt);
        }
        RunOne(w, cs, e, t, s0, i);
      }
    }
  }

  lemma BooleanFetched(w: World, e: PrExpr, t: Tuple)
    requires e.id < |t| && e.ftype == FBoolean
    ensures ProjectOne(w.g, e, t) == Some(t[e.id])
  {
  }

  // The emitted call.
  lemma RunOne(w: World, cs: Cg, e: PrExpr, t: Tuple, s: State, i: nat)
    requires e.id < |cs.regs| == |t| && cs.regs[e.id].ty in {0, 1} && Kind(cs.regs[e.id].ty, t[e.id])
    requires cs.regs[e.id].loc.InReg? && RegHas(s, cs.regs[e.id].loc.r, t[e.id])
    ensures var call := ApplyPexpr(cs.regs[e.id].ty == 0, e.key, e.ftype, RegOf(cs.regs[e.id]), CellOf(cs, Pv(i)));
            Exec1(w, call, s) == match Applied(w, s.rt, e, t[e.id], cs.regs[e.id].ty)
                                 case Wrote(rt, x) => Ok(s.(rt := rt, cells := s.cells[CellOf(cs, Pv(i)) := x]))
                                 case NoWrite(rt) => Ok(s.(rt := rt))
                                 case Threw(rt) => Raise(s.(rt := rt))
  {
  }

  // ----- the operator -----

  function EntryBlock(cs: Cg, es: seq<PrExpr>): Block {
    Block(ProjectCode(cs, es, |es|), None)
  }

  ghost predicate Setup(p: Prog, cs: Cg, r: Rest, cs1: Cg) {
    && r.Project? && Visited(cs, r, cs1) && !HasProject(r.next)
    && cs1.prevBB == cs.nextBB && cs1.mainReturn == cs.mainReturn && Prev(cs1) == EntryBlock(cs, r.exprs)
    && cs1.regs == ProjectRegs(cs, r.exprs) && cs1.nextReg == cs.nextReg
    && cs.nextBB in p.blocks && p.blocks[cs.nextBB].code == ProjectCode(cs, r.exprs, |r.exprs|)
    && Has(p, cs.prevBB, Seal(Prev(cs), cs.nextBB))
    && CodeOk(cs, r.exprs, TypesOf(cs.regs))
  }

  lemma {:induction false} NoKeys(r: Rest)
    requires !HasProject(r)
    ensures PipelineKeys(r) == []
    decreases r
  {
    if !r.Collect? && !r.End? {
      NoKeys(Tail(r));
    }
  }

  lemma KeysFound(p: Prog, cs: Cg, r: Rest)
    requires Ready(p, cs, r) && r.Project?
    ensures CodeOk(cs, r.exprs, TypesOf(cs.regs))
  {
    hide CompileRest;
    NoKeys(r.next);
    assert PipelineKeys(r) == Keys(r.exprs) + [];
    forall j | 0 <= j < |r.exprs|
      ensures ExprOk(r.exprs[j], TypesOf(cs.regs)) && KeyAt(cs, j) == r.exprs[j].key
    {
      assert r.exprs[j] in r.exprs;
    }
  }

  lemma MakeSetup(p: Prog, cs: Cg, r: Rest)
    requires Ready(p, cs, r) && r.Project?
    ensures Setup(p, cs, r, After(r, cs))
  {
    KeysFound(p, cs, r);
    hide CompileRest, Continues, ProjectCode, CodeOk;
    var own, n := map[cs.nextBB := EntryBlock(cs, r.exprs)], cs.nextBB;
    assert Fresh(own, n, n + 1) && Holds(own, n, EntryBlock(cs, r.exprs));
    OwnEmitted(p, cs, r, own, n + 1);
    VisitKeeps(r, cs);
  }

  // The layout after the projection stands for the projected tuple.
  lemma Stands(w: World, cs: Cg, es: seq<PrExpr>, t: Tuple, s: State, s1: State)
    requires CodeOk(cs, es, TypesOf(cs.regs)) && Matches(cs.regs, t, s1) && Filled(w, cs, es, t, s1, |es|)
             && AllFetched(w, es, t, |es|)
    ensures Matches(ProjectRegs(cs, es), ProjectTuple(w.g, es, t), s1)
  {
    var regs, t1 := ProjectRegs(cs, es), ProjectTuple(w.g, es, t);
    forall i | 0 <= i < |regs|
      ensures MatchesOne(regs[i], t1[i], s1)
    {
      var e := es[i];
      assert ExprOk(e, TypesOf(cs.regs));
      if e.ftype == FBoolean {
        BooleanFetched(w, e, t);
        assert MatchesOne(cs.regs[e.id], t[e.id], s1);
      }
    }
  }

  // The calls change the projection cells, the tables and the caches only.
  lemma KeptFrame(p: Prog, cs: Cg, r: Rest, s: State, s1: State, t: Tuple, k: Flow)
    requires r.Project? && LayoutOk(cs, r) && Holding(p, cs, r, s, t, k) && Kept(p.w, cs, s, s1)
    ensures Ran(p, cs, r, s, Nothing(k), s1) && Matches(cs.regs, t, s1) && Calm(p.w.g, cs.pipe, s1, k)
            && JoinReady(cs, r, s1.rt, k.input)
  {
    RanQuiet(p, cs, r, s, k, s1);
    forall i | 0 <= i < |cs.regs|
      ensures MatchesOne(cs.regs[i], t[i], s1)
    {
      assert MatchesOne(cs.regs[i], t[i], s);
    }
  }

  lemma RanRaised(p: Prog, cs: Cg, r: Rest, s: State, k: Flow, s1: State)
    requires Ran(p, cs, r, s, Nothing(k), s1)
    ensures Ran(p, cs, r, s, Outcome([], k, Raised), s1)
  {
  }

  lemma Carry(p: Prog, cs: Cg, r: Rest, cs1: Cg, s: State, t: Tuple, k: Flow) returns (s1: State)
    requires Setup(p, cs, r, cs1) && Simulates(p, cs1, r.next) && Pre(p, cs, r, s, t, k)
    ensures Result(p, cs, r, s, Run(cs.nextBB, 0, s), Push(p.w, r, t, k), s1)
  {
    hide Reaches, Simulates, Ran, Calm, CodeOk, Kept, Filled, ProjectOne, Exec, ProjectCode, Exec1;
    var n, es := cs.nextBB, r.exprs;
    assert CacheOk(p.w.g, s.rt) by { CalmCache(p.w.g, cs.pipe, s, k); }
    var s0 := RunExprs(p.w, cs, es, TypesOf(cs.regs), t, s, |es|);
    RunCode(p, n, ProjectCode(cs, es, |es|), s);
    KeptFrame(p, cs, r, s, s0, t, k);
    if Projectable(p.w.g, es, t) {
      var t1 := ProjectTuple(p.w.g, es, t);
      Stands(p.w, cs, es, t, s, s0);
      assert Pre(p, cs1, r.next, s0, t1, k);
      s1 := PassOn(p, cs, r, cs1, s0, t, k, t1, k);
      ResultAfter(p, cs, r, s, Run(n, 0, s), Nothing(k), s0, Entering(cs1, s0), Push(p.w, r, t, k), s1);
    } else {
      s1 := s0;
      RanRaised(p, cs, r, s, k, s1);
    }
  }

  lemma CalmCache(g: Graph, pipe: nat, s: State, k: Flow)
    requires Calm(g, pipe, s, k)
    ensures CacheOk(g, s.rt)
  {
  }

  lemma Enter(p: Prog, cs: Cg, r: Rest, s: State, t: Tuple, k: Flow) returns (s1: State)
    requires Ready(p, cs, r) && r.Project? && Simulates(p, After(r, cs), r.next) && Pre(p, cs, r, s, t, k)
    ensures Post(p, cs, r, s, Push(p.w, r, t, k), s1)
  {
    hide Reaches, After, CompileRest, Simulates, Ran, EntryBlock, Matches, Calm, CodeOk, Ready;
    MakeSetup(p, cs, r);
    s1 := Carry(p, cs, r, After(r, cs), s, t, k);
    Enters(p, cs, r, s, k, cs.nextBB, Push(p.w, r, t, k), s1);
  }

  // Each collected value is the property it was projected from, in projection order.
  lemma ProjectSimulates(p: Prog, cs: Cg, r: Rest)
    requires Ready(p, cs, r) && r.Project? && Simulates(p, After(r, cs), r.next)
    ensures Simulates(p, cs, r)
  {
    hide Ready, Reaches, Result, Push, After, Pre;
    forall s, t, k | Pre(p, cs, r, s, t, k)
      ensures exists s1 :: Post(p, cs, r, s, Push(p.w, r, t, k), s1)
    {
      var s1 := Enter(p, cs, r, s, t, k);
    }
  }
}
