/** Where projections stop meaning what the plan says: exactly which of them the emitted calls serve. */
module Restrictions {
  import opened Storage
  import opened Ir
  import opened Runtime
  import opened Plan
  import opened Codegen

  // ----- a second projection -----

  // The calls as they would be with the projection's own keys.
  function WithOwnKeys(cs: Cg, es: seq<PrExpr>): Cg {
    cs.(projectKeys := Keys(es))
  }

  // The i-th expression makes a call.
  predicate Calls(cs: Cg, es: seq<PrExpr>, i: nat)
    requires i < |es|
  {
    es[i].ftype != FBoolean && es[i].id < |cs.regs|
  }

  lemma {:induction false} OwnKeysUpTo(cs: Cg, es: seq<PrExpr>, i: nat)
    requires i <= |es|
    ensures ProjectCode(cs, es, i) == ProjectCode(WithOwnKeys(cs, es), es, i)
            <==> forall j :: 0 <= j < i && Calls(cs, es, j) ==> KeyAt(cs, j) == es[j].key
    decreases i
  {
    if i > 0 {
      OwnKeysUpTo(cs, es, i - 1);
      assert KeyAt(WithOwnKeys(cs, es), i - 1) == es[i - 1].key;
    }
  }

  /** The keys of all projections of a pipeline stand in one list, and each projection starts at its front: one
      behind others with keys `before` asks for its own properties if and only if they are also the first keys of
      that list. */
  lemma SecondKeysIff(cs: Cg, before: seq<string>, es: seq<PrExpr>, after: seq<string>)
    requires cs.projectKeys == before + Keys(es) + after
    ensures ProjectCode(cs, es, |es|) == ProjectCode(WithOwnKeys(cs, es), es, |es|)
            <==> forall j :: 0 <= j < |es| && Calls(cs, es, j) ==> (before + Keys(es))[j] == es[j].key
  {
    OwnKeysUpTo(cs, es, |es|);
    assert forall j :: 0 <= j < |es| ==> KeyAt(cs, j) == (before + Keys(es))[j];
  }

  // A failing input: the age of a node whose name is projected first.
  lemma SecondAsksFirst(cs: Cg)
    requires cs.projectKeys == ["name", "age"] && cs.regs != []
    ensures var es := [PrExpr(0, "age", FInt)];
            ProjectCode(cs, es, 1) ==
            Nil.Do(ApplyPexpr(cs.regs[0].ty == 0, "name", FInt, RegOf(cs.regs[0]), CellOf(cs, Pv(1))))
  {
    var es := [PrExpr(0, "age", FInt)];
    assert ProjectCode(cs, es, 0) == Nil;
  }

  // ----- the result cells -----

  // The calls write to the cells there are.
  predicate CellsExist(c: Code) {
    match c
    case Nil => true
    case Then(before, ApplyPexpr(_, _, _, _, Cell(_, Pv(i)))) => i < PV_CELLS && CellsExist(before)
    case Then(before, _) => CellsExist(before)
  }

  lemma {:induction false} CellsUpTo(cs: Cg, es: seq<PrExpr>, i: nat)
    requires i <= |es| && forall e :: e in es ==> e.id < |cs.regs|
    ensures CellsExist(ProjectCode(cs, es, i))
            <==> forall j :: PV_CELLS <= j + 1 && 0 <= j < i ==> es[j].ftype == FBoolean
    decreases i
  {
    if i > 0 {
      CellsUpTo(cs, es, i - 1);
      assert es[i - 1] in es;
    }
  }

  /** Every call of a projection writes to a cell there is if and only if the expressions from the twelfth on are
      forwarded values. */
  lemma CellsFitIff(cs: Cg, es: seq<PrExpr>)
    requires forall e :: e in es ==> e.id < |cs.regs|
    ensures CellsExist(ProjectCode(cs, es, |es|)) <==> forall j :: 11 <= j < |es| ==> es[j].ftype == FBoolean
    ensures CellsFit(es) <==> forall j :: 11 <= j < |es| ==> es[j].ftype == FBoolean
  {
    CellsUpTo(cs, es, |es|);
  }

  // A failing input: one property twelve times.
  lemma TwelveTooMany(cs: Cg)
    requires cs.regs != []
    ensures var es := seq(12, i => PrExpr(0, "name", FString)); !CellsExist(ProjectCode(cs, es, |es|))
  {
    var es := seq(12, i => PrExpr(0, "name", FString));
    CellsFitIff(cs, es);
    assert es[11].ftype == FString;
  }

  // ----- types -----

  /** A projection call neither delivers a value nor throws, and leaves its cell unwritten, exactly for DOUBLE
      and BOOLEAN and for the 64-bit properties of relationships; whatever the property is. */
  lemma SilentIff(rt: Rt, d: Desc, key: string, f: FType, isNode: bool)
    ensures Deliver(rt, d, key, f, isNode).NoWrite? <==> f == FDouble || f == FBoolean || (f == FUint64 && !isNode)
  {
  }

  /** No value of the type has a conversion to a row element exactly for the types of DOUBLE and BOOLEAN and those
      that do not exist. */
  lemma ConvertsIff(g: Graph, ty: nat)
    ensures (forall rt: Rt, v: Val :: Convert(g, rt, v, ty) == None) <==> ty == 3 || ty == 7 || ty > 8
  {
    var rt := Rt([], [], 0, [], [], [], map[], 1, map[0 := ""], map[0 := 0], map[0 := 0], map[], map[]);
    assert ty in {2, 4, 5, 6, 8} ==> Convert(g, rt, IntV(0), ty).Some?;
    assert ty == 0 ==> Convert(g, rt, NodeV(0), ty).Some?;
    assert ty == 1 ==> Convert(g, rt, RshipV(0), ty).Some?;
  }

  // The projected types in the order in which they are numbered.
  const FTYPES: seq<FType> := [FInt, FDouble, FString, FDate, FTime, FBoolean, FUint64]

  /** Behind a projection the i-th value has the number of its type and two more; a forwarded one has the type it
      had. */
  lemma LayoutTypes(cs: Cg, es: seq<PrExpr>, i: nat, n: nat)
    requires i < |es| && n < |FTYPES| && es[i].ftype == FTYPES[n] && es[i].id < |cs.regs|
    ensures var q := ProjectRegs(cs, es)[i];
            if n == 5 then q == cs.regs[es[i].id] else q.ty == n + 2 && q.loc == InCell(Cell(cs.pipe, Pv(i + 1)))
  {
  }
}
