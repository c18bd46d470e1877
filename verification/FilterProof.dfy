/** The filter: two nested loops search the chain of property sets for the first item with the key,
    and the item's value is compared with the argument. */
module FilterProof {
  import opened Storage
  import opened Ir
  import opened Runtime
  import opened Machine
  import opened Plan
  import opened Algebra
  import opened TupleAtATime
  import opened Codegen
  import opened Shape
  import opened Simulation

  function CompareBlock(cs: Cg): Block {
    Block(Nil, Some(CondBr(Eq(ItemValue(ItemReg(cs)), R(cs.nextReg)), cs.nextBB + 1, cs.nextBB + 2)))
  }

  function NodeBlock(cs: Cg, qr: nat): Block {
    Block(Nil.Do(Store(NodeF(RegAt(cs, qr), 4), CellOf(cs, PlistId))), Some(Br(cs.nextBB + 10)))
  }

  function ArgBlock(cs: Cg): Block {
    Block(Nil.Do(LoadArg(cs.nextReg, cs.opId)), Some(Br(cs.nextBB + 3)))
  }

  // The blocks of the search, for a property code.
  ghost predicate HasSearch(p: Prog, cs: Cg, code: nat) {
    var n := cs.nextBB;
    && Has(p, n + 6, Goto(n + 13))
    && Has(p, n + 7, SearchIncr(cs, n + 13))
    && Has(p, n + 8, Goto(n + 16))
    && Has(p, n + 9, SearchNext(cs, n + 10))
    && Has(p, n + 10, WhileHead(CellOf(cs, PlistId), CellOf(cs, RhsAlloca), n + 11, n + 2))
    && Has(p, n + 11, SearchSet(cs, n + 6))
    && Has(p, n + 13, WhileHead(CellOf(cs, LoopCnt), CellOf(cs, MaxCnt), n + 14, n + 9))
    && Has(p, n + 14, SearchItem(cs, code, n + 8, n + 7))
    && Has(p, n + 16, Goto(n + 17))
  }

  // The search writes its own registers and its own cells.
  ghost predicate Searched(cs: Cg, s: State, s1: State) {
    && s1.rt == s.rt && RegsKept(s, s1, cs.nextReg + 1)
    && forall c :: c in s.cells && !(c.pipe == cs.pipe && c.kind in {PlistId, LoopCnt, CurPset}) ==>
         c in s1.cells && s1.cells[c] == s.cells[c]
  }

  lemma SearchedRefl(cs: Cg, s: State)
    ensures Searched(cs, s, s)
  {
  }

  lemma SearchedTrans(cs: Cg, a: State, b: State, c: State)
    requires Searched(cs, a, b) && Searched(cs, b, c)
    ensures Searched(cs, a, c)
  {
  }

  // ----- one property set -----

  ghost predicate InSet(p: Prog, cs: Cg, s: State, ps: nat, i: nat) {
    && RegHas(s, SetReg(cs), PsetV(ps)) && CellHas(s, CellOf(cs, LoopCnt), IntV(i)) && i <= MAX_PITEM_CNT
    && CellHas(s, CellOf(cs, MaxCnt), IntV(MAX_PITEM_CNT)) && CellHas(s, CellOf(cs, CurPset), PsetV(ps))
    && |p.w.g.pset(ps).items| == MAX_PITEM_CNT
  }

  // The item at the index is compared with the key.
  lemma RunItem(p: Prog, cs: Cg, code: nat, s: State, ps: nat, i: nat) returns (s1: State)
    requires Has(p, cs.nextBB + 13, WhileHead(CellOf(cs, LoopCnt), CellOf(cs, MaxCnt), cs.nextBB + 14, cs.nextBB + 9))
    requires Has(p, cs.nextBB + 14, SearchItem(cs, code, cs.nextBB + 8, cs.nextBB + 7))
    requires InSet(p, cs, s, ps, i) && i < MAX_PITEM_CNT
    ensures RegHas(s1, ItemReg(cs), ItemV(p.w.g.pset(ps).items[i])) && Searched(cs, s, s1) && InSet(p, cs, s1, ps, i)
    ensures Reaches(p, Run(cs.nextBB + 13, 0, s),
                    Run(if p.w.g.pset(ps).items[i].key == code then cs.nextBB + 8 else cs.nextBB + 7, 0, s1))
  {
    hide Reaches;
    var n, item := cs.nextBB, p.w.g.pset(ps).items[i];
    s1 := Set(s, ItemReg(cs), ItemV(item));
    RunWhile(p, n + 13, CellOf(cs, LoopCnt), CellOf(cs, MaxCnt), n + 14, n + 9, s);
    assert Exec(p.w, SearchItem(cs, code, n + 8, n + 7).code, s) == Ok(s1);
    RunBlock(p, n + 14, s);
    Trans(p, Run(n + 13, 0, s), Run(n + 14, 0, s), Run(if item.key == code then n + 8 else n + 7, 0, s1));
  }

  lemma RunIncr(p: Prog, cs: Cg, s: State, ps: nat, i: nat) returns (s1: State)
    requires Has(p, cs.nextBB + 7, SearchIncr(cs, cs.nextBB + 13)) && InSet(p, cs, s, ps, i) && i < MAX_PITEM_CNT
    ensures Reaches(p, Run(cs.nextBB + 7, 0, s), Run(cs.nextBB + 13, 0, s1))
    ensures Searched(cs, s, s1) && InSet(p, cs, s1, ps, i + 1)
  {
    hide Reaches, Exec, Exec1;
    s1 := Set(s, cs.nextReg + 3, IntV(i)).(cells := s.cells[CellOf(cs, LoopCnt) := IntV(i + 1)]);
    IncrExec(p.w, cs.nextReg + 3, CellOf(cs, LoopCnt), s, i);
    RunBlock(p, cs.nextBB + 7, s);
  }

  // Where the search of one set ends: at the comparison, or at the step to the next set.
  function Verdict1(cs: Cg, found: Option<PItem>): BlockId {
    if found.Some? then cs.nextBB + 17 else cs.nextBB + 9
  }

  ghost predicate Hit(cs: Cg, s: State, found: Option<PItem>) {
    found.Some? ==> RegHas(s, ItemReg(cs), ItemV(found.value))
  }

  /** The inner loop finds the first of the remaining items with the key. */
  lemma {:induction false} SearchOneSet(p: Prog, cs: Cg, code: nat, s: State, ps: nat, i: nat) returns (s1: State)
    requires HasSearch(p, cs, code) && InSet(p, cs, s, ps, i)
    ensures var found := FirstItem(p.w.g.pset(ps).items[i..], code);
            && Reaches(p, Run(cs.nextBB + 13, 0, s), Run(Verdict1(cs, found), 0, s1))
            && Searched(cs, s, s1) && Hit(cs, s1, found) && CellHas(s1, CellOf(cs, CurPset), PsetV(ps))
    decreases MAX_PITEM_CNT - i
  {
    hide Reaches, InSet, Searched, SearchItem, SearchIncr, SearchNext, SearchSet, WhileHead;
    var n, items := cs.nextBB, p.w.g.pset(ps).items;
    InSetFacts(p, cs, s, ps, i);
    if i == MAX_PITEM_CNT {
      s1 := s;
      SetEnd(p, cs, s, ps);
      SearchedRefl(cs, s);
    } else {
      var s2 := RunItem(p, cs, code, s, ps, i);
      assert items[i..][0] == items[i] && items[i..][1..] == items[i + 1..];
      if items[i].key == code {
        s1 := s2;
        RunFound(p, cs, s1);
        InSetFacts(p, cs, s1, ps, i);
        Trans(p, Run(n + 13, 0, s), Run(n + 8, 0, s1), Run(n + 17, 0, s1));
      } else {
        var s3 := RunIncr(p, cs, s2, ps, i);
        s1 := SearchOneSet(p, cs, code, s3, ps, i + 1);
        SearchedTrans(cs, s2, s3, s1);
        SearchedTrans(cs, s, s2, s1);
        var to := Run(Verdict1(cs, FirstItem(items[i + 1..], code)), 0, s1);
        Trans(p, Run(n + 7, 0, s2), Run(n + 13, 0, s3), to);
        Trans(p, Run(n + 13, 0, s), Run(n + 7, 0, s2), to);
      }
    }
  }

  lemma InSetFacts(p: Prog, cs: Cg, s: State, ps: nat, i: nat)
    requires InSet(p, cs, s, ps, i)
    ensures i <= MAX_PITEM_CNT == |p.w.g.pset(ps).items| && CellHas(s, CellOf(cs, CurPset), PsetV(ps))
  {
  }

  lemma SetEnd(p: Prog, cs: Cg, s: State, ps: nat)
    requires Has(p, cs.nextBB + 13, WhileHead(CellOf(cs, LoopCnt), CellOf(cs, MaxCnt), cs.nextBB + 14, cs.nextBB + 9))
    requires InSet(p, cs, s, ps, MAX_PITEM_CNT)
    ensures |p.w.g.pset(ps).items| == MAX_PITEM_CNT
    ensures Reaches(p, Run(cs.nextBB + 13, 0, s), Run(cs.nextBB + 9, 0, s))
            && CellHas(s, CellOf(cs, CurPset), PsetV(ps))
    ensures p.w.g.pset(ps).items[MAX_PITEM_CNT..] == []
  {
    hide Reaches;
    RunWhile(p, cs.nextBB + 13, CellOf(cs, LoopCnt), CellOf(cs, MaxCnt), cs.nextBB + 14, cs.nextBB + 9, s);
  }

  lemma RunFound(p: Prog, cs: Cg, s: State)
    requires Has(p, cs.nextBB + 8, Goto(cs.nextBB + 16)) && Has(p, cs.nextBB + 16, Goto(cs.nextBB + 17))
    ensures Reaches(p, Run(cs.nextBB + 8, 0, s), Run(cs.nextBB + 17, 0, s))
  {
    hide Reaches;
    var n := cs.nextBB;
    RunGoto(p, n + 8, n + 16, s);
    RunGoto(p, n + 16, n + 17, s);
    Trans(p, Run(n + 8, 0, s), Run(n + 16, 0, s), Run(n + 17, 0, s));
  }

  // ----- the chain of sets -----

  ghost predicate AtChain(p: Prog, cs: Cg, s: State, ids: seq<nat>) {
    && CellVal(s, CellOf(cs, PlistId)).IntV? && LinkedSets(p.w.g, CellVal(s, CellOf(cs, PlistId)).n, ids)
    && CellHas(s, CellOf(cs, MaxCnt), IntV(MAX_PITEM_CNT))
    && CellVal(s, CellOf(cs, RhsAlloca)) in {IntV(UNKNOWN_ID), IntV(INT64_MAX)}
  }

  // The next set of the chain is fetched.
  lemma RunSet(p: Prog, cs: Cg, s: State, ids: seq<nat>) returns (s1: State)
    requires Has(p, cs.nextBB + 6, Goto(cs.nextBB + 13)) && Has(p, cs.nextBB + 11, SearchSet(cs, cs.nextBB + 6))
    requires Has(p, cs.nextBB + 10,
                 WhileHead(CellOf(cs, PlistId), CellOf(cs, RhsAlloca), cs.nextBB + 11, cs.nextBB + 2))
    requires AtChain(p, cs, s, ids) && ids != [] && |p.w.g.pset(ids[0]).items| == MAX_PITEM_CNT
    ensures Reaches(p, Run(cs.nextBB + 10, 0, s), Run(cs.nextBB + 13, 0, s1))
    ensures Searched(cs, s, s1) && InSet(p, cs, s1, ids[0], 0)
  {
    hide Reaches, Exec, Exec1;
    var n, ps := cs.nextBB, ids[0];
    RunWhile(p, n + 10, CellOf(cs, PlistId), CellOf(cs, RhsAlloca), n + 11, n + 2, s);
    s1 := Set(s, SetReg(cs), PsetV(ps)).(cells := s.cells[CellOf(cs, CurPset) := PsetV(ps)][CellOf(cs,
        LoopCnt) := IntV(0)]);
    SetExec(p, cs, s, ps);
    RunBlock(p, n + 11, s);
    RunGoto(p, n + 6, n + 13, s1);
    Trans(p, Run(n + 10, 0, s), Run(n + 11, 0, s), Run(n + 6, 0, s1));
    Trans(p, Run(n + 10, 0, s), Run(n + 6, 0, s1), Run(n + 13, 0, s1));
  }

  lemma SetExec(p: Prog, cs: Cg, s: State, ps: nat)
    requires CellHas(s, CellOf(cs, PlistId), IntV(ps)) && ps < INT64_MAX
    ensures Exec(p.w, SearchSet(cs, cs.nextBB + 6).code, s) ==
            Ok(Set(s, SetReg(cs), PsetV(ps))
                 .(cells := s.cells[CellOf(cs, CurPset) := PsetV(ps)][CellOf(cs, LoopCnt) := IntV(0)]))
  {
    var s0 := Set(s, SetReg(cs), PsetV(ps));
    assert Exec(p.w, Nil.Do(PsetAt(SetReg(cs), L(CellOf(cs, PlistId)))), s) == Ok(s0);
  }

  lemma RunNextSet(p: Prog, cs: Cg, s: State, ps: nat) returns (s1: State)
    requires Has(p, cs.nextBB + 9, SearchNext(cs, cs.nextBB + 10)) && CellHas(s, CellOf(cs, CurPset), PsetV(ps))
    ensures Reaches(p, Run(cs.nextBB + 9, 0, s), Run(cs.nextBB + 10, 0, s1))
    ensures Searched(cs, s, s1) && CellHas(s1, CellOf(cs, PlistId), IntV(p.w.g.pset(ps).next))
  {
    hide Reaches, Exec;
    var r := cs.nextReg;
    s1 := Set(s, r + 4, PsetV(ps)).(cells := s.cells[CellOf(cs, PlistId) := IntV(p.w.g.pset(ps).next)]);
    ExecTwo(p.w, Let(r + 4, L(CellOf(cs, CurPset))), Store(NextSet(r + 4), CellOf(cs, PlistId)), s, Set(s, r + 4,
        PsetV(ps)), s1);
    RunBlock(p, cs.nextBB + 9, s);
  }

  // Where the search ends: at the comparison, or at the reject block.
  function Verdict2(cs: Cg, found: Option<PItem>): BlockId {
    if found.Some? then cs.nextBB + 17 else cs.nextBB + 2
  }

  lemma {:induction false} FirstItemAppend(a: seq<PItem>, b: seq<PItem>, code: nat)
    ensures FirstItem(a + b, code) == if FirstItem(a, code).Some? then FirstItem(a, code) else FirstItem(b, code)
  {
    if a == [] {
      assert a + b == b;
    } else {
      assert (a + b)[1..] == a[1..] + b;
      FirstItemAppend(a[1..], b, code);
    }
  }

  // One set of the chain: the item is found in it, or control is back at the head of the chain loop.
  lemma ChainStep(p: Prog, cs: Cg, code: nat, s: State, ids: seq<nat>) returns (s1: State)
    requires GraphOk(p.w.g) && HasSearch(p, cs, code) && AtChain(p, cs, s, ids) && ids != []
    ensures var found := FirstItem(p.w.g.pset(ids[0]).items, code);
            && Reaches(p, Run(cs.nextBB + 10, 0, s), Run(if found.Some? then cs.nextBB + 17 else cs.nextBB + 10, 0, s1))
            && Searched(cs, s, s1) && Hit(cs, s1, found) && (found.None? ==> AtChain(p, cs, s1, ids[1..]))
  {
    hide Reaches, InSet, Searched, SearchItem, SearchIncr, SearchNext, SearchSet, WhileHead, AtChain, GraphOk;
    var n, ps := cs.nextBB, ids[0];
    var items := p.w.g.pset(ps).items;
    assert items[0..] == items;
    SetSize(p.w.g, ps);
    var s2 := RunSet(p, cs, s, ids);
    var s3 := SearchOneSet(p, cs, code, s2, ps, 0);
    SearchedTrans(cs, s, s2, s3);
    Trans(p, Run(n + 10, 0, s), Run(n + 13, 0, s2), Run(Verdict1(cs, FirstItem(items, code)), 0, s3));
    if FirstItem(items, code).Some? {
      s1 := s3;
    } else {
      s1 := RunNextSet(p, cs, s3, ps);
      SearchedTrans(cs, s, s3, s1);
      ChainNext(p, cs, s, s1, ids);
      Trans(p, Run(n + 10, 0, s), Run(n + 9, 0, s3), Run(n + 10, 0, s1));
    }
  }

  /** Property search refines linear search: the nested loops stop at the first item with the key in
      the flattened chain, and reach the reject block exactly if there is none. */
  lemma {:induction false} SearchChain(p: Prog, cs: Cg, code: nat, s: State, ids: seq<nat>) returns (s1: State)
    requires GraphOk(p.w.g) && HasSearch(p, cs, code) && AtChain(p, cs, s, ids)
    ensures var found := FirstItem(Items(p.w.g, ids), code);
            && Reaches(p, Run(cs.nextBB + 10, 0, s), Run(Verdict2(cs, found), 0, s1))
            && Searched(cs, s, s1) && Hit(cs, s1, found)
    decreases |ids|
  {
    hide Reaches, HasSearch, Searched, AtChain, GraphOk;
    var n := cs.nextBB;
    if ids == [] {
      s1 := s;
      ChainEnd(p, cs, code, s);
      SearchedRefl(cs, s);
    } else {
      var items, rest := p.w.g.pset(ids[0]).items, Items(p.w.g, ids[1..]);
      FirstItemAppend(items, rest, code);
      var s2 := ChainStep(p, cs, code, s, ids);
      if FirstItem(items, code).Some? {
        s1 := s2;
      } else {
        s1 := SearchChain(p, cs, code, s2, ids[1..]);
        SearchedTrans(cs, s, s2, s1);
        Trans(p, Run(n + 10, 0, s), Run(n + 10, 0, s2), Run(Verdict2(cs, FirstItem(rest, code)), 0, s1));
      }
    }
  }

  lemma SetSize(g: Graph, ps: nat)
    requires GraphOk(g)
    ensures |g.pset(ps).items| == MAX_PITEM_CNT
  {
  }

  // The id of the next set leads the rest of the chain.
  lemma ChainNext(p: Prog, cs: Cg, s: State, s1: State, ids: seq<nat>)
    requires AtChain(p, cs, s, ids) && ids != [] && Searched(cs, s, s1)
    requires CellHas(s1, CellOf(cs, PlistId), IntV(p.w.g.pset(ids[0]).next))
    ensures AtChain(p, cs, s1, ids[1..])
  {
  }

  lemma ChainEnd(p: Prog, cs: Cg, code: nat, s: State)
    requires HasSearch(p, cs, code) && AtChain(p, cs, s, [])
    ensures Reaches(p, Run(cs.nextBB + 10, 0, s), Run(cs.nextBB + 2, 0, s))
  {
    hide Reaches;
    RunWhile(p, cs.nextBB + 10, CellOf(cs, PlistId), CellOf(cs, RhsAlloca), cs.nextBB + 11, cs.nextBB + 2, s);
  }

  // ----- the operator -----

  ghost predicate Setup(p: Prog, cs: Cg, r: Rest, cs1: Cg) {
    && r.Filter? && Visited(cs, r, cs1)
    && cs1.prevBB == cs.nextBB + 1 && cs1.mainReturn == cs.mainReturn && Prev(cs1) == EMPTY
    && cs1.regs == cs.regs && cs1.nextReg == cs.nextReg + 5
    && HasSearch(p, cs, p.w.g.code(r.key))
    && Has(p, cs.nextBB, ArgBlock(cs)) && Has(p, cs.nextBB + 3, Goto(cs.nextBB + 4))
    && Has(p, cs.nextBB + 4, NodeBlock(cs, r.qr)) && Has(p, cs.nextBB + 17, CompareBlock(cs))
    && Has(p, cs.nextBB + 2, Goto(cs.mainReturn))
    && Has(p, cs.prevBB, Seal(Prev(cs), cs.nextBB))
  }

  ghost predicate SearchTable(own: Blocks, cs: Cg, code: nat) {
    var n := cs.nextBB;
    && Holds(own, n + 6, Goto(n + 13)) && Holds(own, n + 7, SearchIncr(cs, n + 13)) && Holds(own, n + 8, Goto(n + 16))
    && Holds(own, n + 9, SearchNext(cs, n + 10))
    && Holds(own, n + 10, WhileHead(CellOf(cs, PlistId), CellOf(cs, RhsAlloca), n + 11, n + 2))
    && Holds(own, n + 11, SearchSet(cs, n + 6))
    && Holds(own, n + 13, WhileHead(CellOf(cs, LoopCnt), CellOf(cs, MaxCnt), n + 14, n + 9))
    && Holds(own, n + 14, SearchItem(cs, code, n + 8, n + 7))
    && Holds(own, n + 16, Goto(n + 17))
  }

  lemma TableOfSearch(cs: Cg, code: nat)
    ensures SearchTable(SearchBlocks(cs, code), cs, code)
  {
    hide SearchItem, SearchIncr, SearchNext, SearchSet, WhileHead, Goto;
  }

  ghost predicate FrameTable(own: Blocks, cs: Cg, qr: nat) {
    var n := cs.nextBB;
    && Holds(own, n, ArgBlock(cs)) && Holds(own, n + 1, EMPTY) && Holds(own, n + 2, Goto(cs.mainReturn))
    && Holds(own, n + 3, Goto(n + 4)) && Holds(own, n + 4, NodeBlock(cs, qr)) && Holds(own, n + 17, CompareBlock(cs))
  }

  lemma TableOfFrame(cs: Cg, qr: nat)
    ensures FrameTable(FilterFrame(cs, qr), cs, qr)
  {
    hide Goto;
  }

  lemma Table(cs: Cg, r: Rest)
    requires r.Filter?
    ensures SearchTable(FilterBlocks(cs, r.qr, r.key), cs, cs.dict(r.key))
            && FrameTable(FilterBlocks(cs, r.qr, r.key), cs, r.qr)
  {
    TableOfSearch(cs, cs.dict(r.key));
    TableOfFrame(cs, r.qr);
    SearchFresh(cs, cs.dict(r.key));
    hide SearchBlocks, FilterFrame, SearchItem, SearchIncr, SearchNext, SearchSet, WhileHead, Goto, ArgBlock,
         NodeBlock, CompareBlock;
  }

  lemma MakeSetup(p: Prog, cs: Cg, r: Rest)
    requires Ready(p, cs, r) && r.Filter?
    ensures Setup(p, cs, r, After(r, cs))
  {
    hide FilterBlocks, CompileRest, Continues;
    FilterFresh(cs, r.qr, r.key);
    Table(cs, r);
    OwnEmitted(p, cs, r, FilterBlocks(cs, r.qr, r.key), cs.nextBB + 19);
    VisitKeeps(r, cs);
  }

  lemma Inputs(p: Prog, cs: Cg, r: Rest, s: State, t: Tuple)
    requires Ready(p, cs, r) && r.Filter? && Matches(cs.regs, t, s)
    ensures r.qr < |t| && t[r.qr].NodeV? && RegHas(s, RegAt(cs, r.qr), t[r.qr]) && RegAt(cs, r.qr) < cs.nextReg
    ensures ArgAt(p.w, cs.opId) == ValueArg(r.arg)
  {
    hide CompileRest;
    ReadArg(p, cs, r);
    assert MatchesOne(cs.regs[r.qr], t[r.qr], s);
    assert TypesOf(cs.regs)[r.qr] == cs.regs[r.qr].ty;
  }

  // The argument is loaded and the search starts at the node's first property set.
  lemma RunStart(p: Prog, cs: Cg, r: Rest, s: State, node: nat) returns (s1: State)
    requires r.Filter? && ArgAt(p.w, cs.opId) == ValueArg(r.arg) && RegHas(s, RegAt(cs, r.qr), NodeV(node))
             && RegAt(cs, r.qr) < cs.nextReg
    requires Has(p, cs.nextBB, ArgBlock(cs)) && Has(p, cs.nextBB + 3, Goto(cs.nextBB + 4))
             && Has(p, cs.nextBB + 4, NodeBlock(cs, r.qr))
    ensures Reaches(p, Run(cs.nextBB, 0, s), Run(cs.nextBB + 10, 0, s1))
    ensures s1 == Set(s, cs.nextReg, IntV(r.arg))
              .(cells := s.cells[CellOf(cs, PlistId) := IntV(p.w.g.node(node).props)])
  {
    hide Reaches, Exec, Exec1;
    var n, s0 := cs.nextBB, Set(s, cs.nextReg, IntV(r.arg));
    s1 := s0.(cells := s.cells[CellOf(cs, PlistId) := IntV(p.w.g.node(node).props)]);
    StartExec(p, cs, r, s, node);
    RunBlock(p, n, s);
    RunGoto(p, n + 3, n + 4, s0);
    RunBlock(p, n + 4, s0);
    Trans(p, Run(n, 0, s), Run(n + 3, 0, s0), Run(n + 4, 0, s0));
    Trans(p, Run(n, 0, s), Run(n + 4, 0, s0), Run(n + 10, 0, s1));
  }

  lemma StartExec(p: Prog, cs: Cg, r: Rest, s: State, node: nat)
    requires r.Filter? && ArgAt(p.w, cs.opId) == ValueArg(r.arg) && RegHas(s, RegAt(cs, r.qr), NodeV(node))
             && RegAt(cs, r.qr) < cs.nextReg
    ensures var s0 := Set(s, cs.nextReg, IntV(r.arg));
            && Exec(p.w, ArgBlock(cs).code, s) == Ok(s0)
            && Exec(p.w, NodeBlock(cs, r.qr).code, s0) ==
               Ok(s0.(cells := s.cells[CellOf(cs, PlistId) := IntV(p.w.g.node(node).props)]))
  {
    hide NodeBlock;
    NodeExec(p, cs, r.qr, Set(s, cs.nextReg, IntV(r.arg)), node);
  }

  lemma NodeExec(p: Prog, cs: Cg, qr: nat, s: State, node: nat)
    requires RegHas(s, RegAt(cs, qr), NodeV(node))
    ensures Exec(p.w, NodeBlock(cs, qr).code, s) ==
            Ok(s.(cells := s.cells[CellOf(cs, PlistId) := IntV(p.w.g.node(node).props)]))
  {
  }

  // The item's value against the argument.
  lemma RunCompare(p: Prog, cs: Cg, s: State, item: PItem, arg: nat)
    requires Has(p, cs.nextBB + 17, CompareBlock(cs)) && RegHas(s, ItemReg(cs), ItemV(item))
             && RegHas(s, cs.nextReg, IntV(arg))
    ensures Reaches(p, Run(cs.nextBB + 17, 0, s), Run(if item.value == arg then cs.nextBB + 1 else cs.nextBB + 2, 0, s))
  {
    hide Reaches;
    RunBlock(p, cs.nextBB + 17, s);
  }

  function Item(p: Prog, r: Rest, ids: seq<nat>): Option<PItem>
    requires r.Filter?
  {
    FirstItem(Items(p.w.g, ids), p.w.g.code(r.key))
  }

  // Where the verdict on the item leads.
  function Target(cs: Cg, r: Rest, item: Option<PItem>): BlockId
    requires r.Filter?
  {
    if item.Some? && item.value.value == r.arg then cs.nextBB + 1 else cs.nextBB + 2
  }

  lemma Judge(p: Prog, cs: Cg, r: Rest, s: State, item: Option<PItem>)
    requires r.Filter? && Has(p, cs.nextBB + 17, CompareBlock(cs)) && Hit(cs, s, item)
             && RegHas(s, cs.nextReg, IntV(r.arg))
    ensures Reaches(p, Run(Verdict2(cs, item), 0, s), Run(Target(cs, r, item), 0, s))
  {
    hide Reaches;
    if item.Some? {
      RunCompare(p, cs, s, item.value, r.arg);
    } else {
      Refl(p, Run(cs.nextBB + 2, 0, s));
    }
  }

  // The search starts where the chain of the node's property sets does.
  lemma StartChain(p: Prog, cs: Cg, r: Rest, s: State, s0: State, t: Tuple, k: Flow, node: nat, ids: seq<nat>)
    requires r.Filter? && Holding(p, cs, r, s, t, k) && LinkedSets(p.w.g, p.w.g.node(node).props, ids)
    requires s0 == Set(s, cs.nextReg, IntV(r.arg))
               .(cells := s.cells[CellOf(cs, PlistId) := IntV(p.w.g.node(node).props)])
    ensures AtChain(p, cs, s0, ids) && RegHas(s0, cs.nextReg, IntV(r.arg))
  {
    hide LinkedSets;
  }

  lemma SearchFrame(p: Prog, cs: Cg, r: Rest, s: State, s0: State, s1: State, t: Tuple, k: Flow, node: nat)
    requires r.Filter? && LayoutOk(cs, r) && Holding(p, cs, r, s, t, k) && Searched(cs, s0, s1)
    requires s0 == Set(s, cs.nextReg, IntV(r.arg))
               .(cells := s.cells[CellOf(cs, PlistId) := IntV(p.w.g.node(node).props)])
    ensures Ran(p, cs, r, s, Nothing(k), s1) && Holding(p, cs, r, s1, t, k) && s1.rt == s.rt
            && RegHas(s1, cs.nextReg, IntV(r.arg))
  {
    hide JoinReady, CacheOk, LocOk, Matches, Frame;
    SearchedFrame(cs, r, s, s0, s1);
    Own(p, cs, r, s, t, k, s1);
  }

  lemma SearchedFrame(cs: Cg, r: Rest, s: State, s0: State, s1: State)
    requires r.Filter? && Searched(cs, s0, s1) && RegsKept(s, s0, cs.nextReg) && s0.rt == s.rt
    requires forall c :: c in s.cells && c != CellOf(cs, PlistId) ==> c in s0.cells && s0.cells[c] == s.cells[c]
    ensures Frame(cs, r, s, s1)
  {
  }

  // From the entry block to the verdict.
  lemma Decide(p: Prog, cs: Cg, r: Rest, cs1: Cg, s: State, t: Tuple, k: Flow, ids: seq<nat>) returns (s1: State)
    requires GraphOk(p.w.g) && Setup(p, cs, r, cs1) && Holding(p, cs, r, s, t, k)
             && ArgAt(p.w, cs.opId) == ValueArg(r.arg)
    requires r.qr < |t| && t[r.qr].NodeV? && RegHas(s, RegAt(cs, r.qr), t[r.qr]) && RegAt(cs, r.qr) < cs.nextReg
    requires LinkedSets(p.w.g, p.w.g.node(t[r.qr].p).props, ids)
    ensures Ran(p, cs, r, s, Nothing(k), s1) && Holding(p, cs, r, s1, t, k) && s1.rt == s.rt
    ensures Reaches(p, Run(cs.nextBB, 0, s), Run(Target(cs, r, Item(p, r, ids)), 0, s1))
  {
    hide Reaches, Holding, Ran, Searched, HasSearch, AtChain, GraphOk, ArgBlock, NodeBlock, CompareBlock, LinkedSets,
         LayoutOk, FirstItem, Items;
    var n, item := cs.nextBB, Item(p, r, ids);
    var s0 := RunStart(p, cs, r, s, t[r.qr].p);
    StartChain(p, cs, r, s, s0, t, k, t[r.qr].p, ids);
    s1 := SearchChain(p, cs, p.w.g.code(r.key), s0, ids);
    SearchFrame(p, cs, r, s, s0, s1, t, k, t[r.qr].p);
    Judge(p, cs, r, s1, item);
    Trans(p, Run(n, 0, s), Run(n + 10, 0, s0), Run(Verdict2(cs, item), 0, s1));
    Trans(p, Run(n, 0, s), Run(Verdict2(cs, item), 0, s1), Run(Target(cs, r, item), 0, s1));
  }

  lemma Carry(p: Prog, cs: Cg, r: Rest, cs1: Cg, s: State, t: Tuple, k: Flow) returns (s1: State)
    requires GraphOk(p.w.g) && Setup(p, cs, r, cs1) && Simulates(p, cs1, r.next) && Pre(p, cs, r, s, t, k)
    requires r.qr < |t| && t[r.qr].NodeV? && RegHas(s, RegAt(cs, r.qr), t[r.qr]) && RegAt(cs, r.qr) < cs.nextReg
    requires ArgAt(p.w, cs.opId) == ValueArg(r.arg)
    ensures Result(p, cs, r, s, Run(cs.nextBB, 0, s), Push(p.w, r, t, k), s1)
  {
    hide Reaches, Simulates, Ran, Matches, Calm, HasSearch, Result, GraphOk, LinkedSets;
    var n, ids := cs.nextBB, SetChain(p.w.g, p.w.g.node(t[r.qr].p).props);
    SetChainIsLinked(p.w.g, t[r.qr].p);
    var s0 := Decide(p, cs, r, cs1, s, t, k, ids);
    if FilterHolds(p.w.g, r, t) {
      PushAllOne(p.w, r.next, t, k);
      assert Pre(p, cs1, r.next, s0, t, k);
      s1 := PassOn(p, cs, r, cs1, s0, t, k, t, k);
      ResultAfter(p, cs, r, s, Run(n, 0, s), Nothing(k), s0, Run(n + 1, 0, s0), Push(p.w, r, t, k), s1);
    } else {
      Drop(p, cs, r, s0, t, k, n + 2);
      s1 := s0;
      ResultAfter(p, cs, r, s, Run(n, 0, s), Nothing(k), s0, Run(n + 2, 0, s0), Nothing(k), s1);
    }
  }

  lemma Enter(p: Prog, cs: Cg, r: Rest, s: State, t: Tuple, k: Flow) returns (s1: State)
    requires Ready(p, cs, r) && r.Filter? && Simulates(p, After(r, cs), r.next) && Pre(p, cs, r, s, t, k)
    ensures Post(p, cs, r, s, Push(p.w, r, t, k), s1)
  {
    hide Reaches, After, CompileRest, Simulates, Ran, Matches, Calm, HasSearch, GraphOk;
    MakeSetup(p, cs, r);
    Inputs(p, cs, r, s, t);
    s1 := Carry(p, cs, r, After(r, cs), s, t, k);
    Enters(p, cs, r, s, k, cs.nextBB, Push(p.w, r, t, k), s1);
  }

  // A filter passes exactly the tuples whose node holds the argument under the key.
  lemma FilterSimulates(p: Prog, cs: Cg, r: Rest)
    requires Ready(p, cs, r) && r.Filter? && Simulates(p, After(r, cs), r.next)
    ensures Simulates(p, cs, r)
  {
    hide Ready, Reaches, Result, Push, After, Pre;
    forall s, t, k | Pre(p, cs, r, s, t, k)
      ensures exists s1 :: Post(p, cs, r, s, Push(p.w, r, t, k), s1)
    {
      var s1 := Enter(p, cs, r, s, t, k);
    }
  }
}
