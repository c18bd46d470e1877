/** What the assumptions of the main theorem admit, with the numbers written out: every graph whose chains end and
    stay below 2^63 - 1, every operator in every form, and a state to start from. */
module Admitted {
  import opened Storage
  import opened Ir
  import opened Runtime
  import opened Machine
  import opened Plan
  import opened Algebra
  import opened Simulation
  import opened Kinds
  import opened Runs
  import opened Correctness
  import JoinQueue

  // ----- chains -----

  // The ids met from the first on: all below 2^63 - 1, each the successor of the one before, and then the end marker
  // 2^64 - 1.
  predicate Chained(next: nat -> nat, first: nat, ids: seq<nat>) {
    && (forall i :: 0 <= i < |ids| ==> ids[i] < 0x7FFF_FFFF_FFFF_FFFF)
    && (ids != [] ==> ids[0] == first)
    && (forall i :: 0 <= i < |ids| - 1 ==> ids[i + 1] == next(ids[i]))
    && (if ids == [] then first else next(ids[|ids| - 1])) == 0xFFFF_FFFF_FFFF_FFFF
  }

  function ListNext(g: Graph, d: Dir): nat -> nat {
    if d == From then (id: nat) => g.rship(id).nextSrc else (id: nat) => g.rship(id).nextDst
  }

  function SetNext(g: Graph): nat -> nat {
    (id: nat) => g.pset(id).next
  }

  function ListStart(g: Graph, d: Dir, p: nat): nat {
    match d case From => g.node(p).fromRships case To => g.node(p).toRships
  }

  lemma ChainedFirst(next: nat -> nat, first: nat, ids: seq<nat>)
    requires ids != []
    ensures Chained(next, first, ids) <==>
            ids[0] == first && first < 0x7FFF_FFFF_FFFF_FFFF && Chained(next, next(first), ids[1..])
  {
    var rest := ids[1..];
    assert forall i :: 0 <= i < |rest| ==> rest[i] == ids[i + 1];
    assert forall i :: 1 <= i < |ids| ==> ids[i] == rest[i - 1];
    assert |rest| > 0 ==> rest[|rest| - 1] == ids[|ids| - 1];
    if Chained(next, first, ids) {
      forall i | 0 <= i < |rest| - 1
        ensures rest[i + 1] == next(rest[i])
      {
        assert ids[i + 1 + 1] == next(ids[i + 1]);
      }
    }
    if ids[0] == first && first < 0x7FFF_FFFF_FFFF_FFFF && Chained(next, next(first), rest) {
      forall i | 0 <= i < |ids| - 1
        ensures ids[i + 1] == next(ids[i])
      {
        if i > 0 {
          assert rest[i - 1 + 1] == next(rest[i - 1]);
        }
      }
    }
  }

  lemma {:induction false} LinkedIff(g: Graph, d: Dir, id: nat, ids: seq<nat>)
    ensures Linked(g, d, id, ids) <==> Chained(ListNext(g, d), id, ids)
    decreases |ids|
  {
    if ids != [] {
      ChainedFirst(ListNext(g, d), id, ids);
      LinkedIff(g, d, Next(g.rship(id), d), ids[1..]);
    }
  }

  lemma {:induction false} LinkedSetsIff(g: Graph, id: nat, ids: seq<nat>)
    ensures LinkedSets(g, id, ids) <==> Chained(SetNext(g), id, ids)
    decreases |ids|
  {
    if ids != [] {
      ChainedFirst(SetNext(g), id, ids);
      LinkedSetsIff(g, g.pset(id).next, ids[1..]);
    }
  }

  /** Every chain of relationships with such ids is walked to its end: a single-hop traversal yields exactly those
      with the label. */
  lemma ForeachReaches(g: Graph, r: Rest, t: Tuple, p: nat, ids: seq<nat>)
    requires r.Foreach? && !IsVariable(r) && t != [] && t[|t| - 1] == NodeV(p)
    requires Chained(ListNext(g, r.dir), ListStart(g, r.dir, p), ids)
    ensures ForeachTuples(g, r, t) == EdgeTuples(g, g.code(r.lbl), t, ids)
  {
    var start := First(g.node(p), r.dir);
    LinkedIff(g, r.dir, start, ids);
    LinkedUnique(g, r.dir, start, ids, Chain(g, r.dir, start));
  }

  // The node's list, or its properties, come to the end marker.
  ghost predicate ListChained(g: Graph, p: nat, d: Dir) {
    exists ids :: Chained(ListNext(g, d), ListStart(g, d, p), ids)
  }

  ghost predicate SetsChained(g: Graph, p: nat) {
    exists ids :: Chained(SetNext(g), g.node(p).props, ids)
  }

  /** Every graph whose chains end is admitted, and whose property sets have three items. */
  lemma GraphOkIff(g: Graph)
    ensures GraphOk(g) <==>
            && (forall p: nat, d: Dir :: ListChained(g, p, d)) && (forall p: nat :: SetsChained(g, p))
            && forall i: nat :: |g.pset(i).items| == 3
  {
    forall p: nat, d: Dir
      ensures ListEnds(g, p, d) <==> ListChained(g, p, d)
    {
      ListIff(g, p, d);
    }
    forall p: nat
      ensures SetsEnd(g, p) <==> SetsChained(g, p)
    {
      SetsIff(g, p);
    }
  }

  lemma ListIff(g: Graph, p: nat, d: Dir)
    ensures ListEnds(g, p, d) <==> ListChained(g, p, d)
  {
    hide Linked, Chained;
    var start := ListStart(g, d, p);
    assert start == First(g.node(p), d);
    forall ids
      ensures Linked(g, d, start, ids) <==> Chained(ListNext(g, d), start, ids)
    {
      LinkedIff(g, d, start, ids);
    }
  }

  lemma SetsIff(g: Graph, p: nat)
    ensures SetsEnd(g, p) <==> SetsChained(g, p)
  {
    hide LinkedSets, Chained;
    forall ids
      ensures LinkedSets(g, g.node(p).props, ids) <==> Chained(SetNext(g), g.node(p).props, ids)
    {
      LinkedSetsIff(g, g.node(p).props, ids);
    }
  }

  // ----- sizes -----

  /** Join inputs of up to 2^31 - 1 rows are counted. */
  lemma ReadableIff(types: seq<nat>, rows: seq<Tuple>)
    ensures Readable(types, rows) <==> |rows| <= 0x7FFF_FFFF && AllKinds(types, rows)
  {
  }

  lemma SmallInputsIff(w: World, plan: Plan)
    ensures SmallInputs(w, plan) <==> forall q :: q in Inputs(plan.rest) ==> |Eval(w, q).ts| <= 0x7FFF_FFFF
  {
    hide Eval;
    if SmallInputs(w, plan) {
      forall q | q in Inputs(plan.rest)
        ensures |Eval(w, q).ts| <= 0x7FFF_FFFF
      {
        var i :| 0 <= i < |Inputs(plan.rest)| && Inputs(plan.rest)[i] == q;
        assert |Eval(w, Inputs(plan.rest)[i]).ts| < MAX_ROWS;
      }
    }
    assert forall i :: 0 <= i < |Inputs(plan.rest)| ==> Inputs(plan.rest)[i] in Inputs(plan.rest);
  }

  // ----- pipelines -----

  predicate IsLimit(r: Rest) {
    r.Limit?
  }

  predicate IsHop(r: Rest) {
    r.Foreach? && !(r.min == 0 && r.max == 0)
  }

  predicate IsJoin(r: Rest) {
    r.Join?
  }

  predicate Some(ops: seq<Rest>, f: Rest -> bool) {
    exists i :: 0 <= i < |ops| && f(ops[i])
  }

  predicate AtMostOne(ops: seq<Rest>, f: Rest -> bool) {
    forall i, j :: 0 <= i < j < |ops| ==> !(f(ops[i]) && f(ops[j]))
  }

  lemma OneMore(r: Rest, rest: seq<Rest>, f: Rest -> bool)
    ensures Some([r] + rest, f) <==> f(r) || Some(rest, f)
    ensures AtMostOne([r] + rest, f) <==> AtMostOne(rest, f) && (f(r) ==> !Some(rest, f))
  {
    var ops := [r] + rest;
    assert ops[0] == r && forall i :: 0 <= i < |rest| ==> rest[i] == ops[i + 1];
    assert forall i :: 1 <= i < |ops| ==> ops[i] == rest[i - 1];
    if Some(rest, f) {
      var i :| 0 <= i < |rest| && f(rest[i]);
      assert f(ops[i + 1]);
    }
    if AtMostOne(ops, f) {
      forall i, j | 0 <= i < j < |rest|
        ensures !(f(rest[i]) && f(rest[j]))
      {
        assert !(f(ops[i + 1]) && f(ops[j + 1]));
      }
    }
  }

  /** One Limit, one traversal and one join: no two of the operators of the pipeline are such. */
  lemma {:induction false} OneOfEachIff(r: Rest)
    ensures HasLimit(r) <==> Some(Walked(r), IsLimit)
    ensures HasVar(r) <==> Some(Walked(r), IsHop)
    ensures HasJoin(r) <==> Some(Walked(r), IsJoin)
    ensures OneLimit(r) <==> AtMostOne(Walked(r), IsLimit)
    ensures OneVar(r) <==> AtMostOne(Walked(r), IsHop)
    ensures OneJoin(r) <==> AtMostOne(Walked(r), IsJoin)
    decreases r
  {
    hide Some, AtMostOne;
    if r.Collect? || r.End? {
      NoneAtAll();
    } else {
      OneOfEachIff(Tail(r));
      OneMore(r, Walked(Tail(r)), IsLimit);
      OneMore(r, Walked(Tail(r)), IsHop);
      OneMore(r, Walked(Tail(r)), IsJoin);
    }
  }

  lemma NoneAtAll()
    ensures !Some([], IsLimit) && !Some([], IsHop) && !Some([], IsJoin)
    ensures AtMostOne([], IsLimit) && AtMostOne([], IsHop) && AtMostOne([], IsJoin)
  {
  }

  // The pipelines of a query, the main one first; the last one runs first.
  function Pipelines(plan: Plan): seq<Plan> {
    [plan] + Inputs(plan.rest)
  }

  // No pipeline stops half-way before another one with a variable-hop traversal runs.
  ghost predicate Undisturbed(w: World, ps: seq<Plan>) {
    forall i, j :: 0 <= i < j < |ps| && HasVar(ps[i].rest) ==> !HalfWay(w, ps[j])
  }

  ghost predicate SomeHalf(w: World, ps: seq<Plan>) {
    exists i :: 0 <= i < |ps| && HalfWay(w, ps[i])
  }

  lemma UndisturbedFirst(w: World, p: Plan, qs: seq<Plan>)
    ensures Undisturbed(w, [p] + qs) <==> Undisturbed(w, qs) && (HasVar(p.rest) ==> !SomeHalf(w, qs))
    ensures SomeHalf(w, [p] + qs) <==> HalfWay(w, p) || SomeHalf(w, qs)
  {
    hide HalfWay, HasVar;
    var ps := [p] + qs;
    assert ps[0] == p && forall i :: 0 <= i < |qs| ==> qs[i] == ps[i + 1];
    assert forall i :: 1 <= i < |ps| ==> ps[i] == qs[i - 1];
    if SomeHalf(w, qs) {
      var i :| 0 <= i < |qs| && HalfWay(w, qs[i]);
      assert HalfWay(w, ps[i + 1]);
      assert HasVar(p.rest) ==> !Undisturbed(w, ps) by {
        assert HasVar(ps[0].rest) <==> HasVar(p.rest);
      }
    }
    if Undisturbed(w, ps) {
      forall i, j | 0 <= i < j < |qs| && HasVar(qs[i].rest)
        ensures !HalfWay(w, qs[j])
      {
        assert HasVar(ps[i + 1].rest) ==> !HalfWay(w, ps[j + 1]);
      }
    }
  }

  /** Settled queries are those, over all their pipelines. */
  lemma {:induction false} SettledIff(w: World, plan: Plan)
    ensures Settled(w, plan) <==> Undisturbed(w, Pipelines(plan))
    ensures Halves(w, plan) <==> SomeHalf(w, Pipelines(plan))
    decreases plan
  {
    hide HalfWay, HasVar, Undisturbed, SomeHalf, Halves;
    UndisturbedFirst(w, plan, Inputs(plan.rest));
    if HasJoin(plan.rest) {
      RhsSmaller(plan.rest);
      InputsOf(plan.rest);
      HalvesBelow(w, plan);
      SettledIff(w, JoinRhs(plan.rest));
      assert Inputs(plan.rest) == Pipelines(JoinRhs(plan.rest));
    } else {
      NoInputs(w, plan);
      NoPipelines(w);
    }
  }

  lemma NoPipelines(w: World)
    ensures Undisturbed(w, []) && !SomeHalf(w, [])
  {
  }

  // ----- a state to start from -----

  function NewRt(rows: seq<Row>): Rt {
    Rt([], [], 0, rows, [], [], map[], 1, map[], map[], map[], map[], map[])
  }

  /** Nothing is left over when nothing has run. */
  lemma NewIsFresh(w: World, plan: Plan, rows: seq<Row>)
    ensures Fresh(w, plan, NewRt(rows))
  {
    EmptyContents(NewRt(rows), 0, |Inputs(plan.rest)|);
  }

  lemma {:induction false} EmptyContents(rt: Rt, jid: nat, n: nat)
    requires rt.rhs == map[]
    ensures AllEmpty(Contents(rt, jid, n))
    decreases n
  {
    if n > 0 {
      EmptyContents(rt, jid + 1, n - 1);
    }
  }

  // ----- every operator -----

  // A pipeline's operators in every form: both traversals, an expand, a filter, a limit and a sort.
  datatype Forms = Forms(single: Dir, several: Dir, min: int, max: int, out1: bool, out2: bool, qr: nat, arg: nat,
                         n: int, lbl1: string, lbl2: string, lbl3: string, lbl4: string, key: string)

  function Straight(f: Forms, next: Rest): Rest {
    Foreach(f.single, 0, 0, f.lbl1, Expand(f.out1, f.lbl2, Filter(f.qr, f.key, f.arg, Lower(f, next))))
  }

  function Lower(f: Forms, next: Rest): Rest {
    Foreach(f.several, f.min, f.max, f.lbl3, Expand(f.out2, f.lbl4, Limit(f.n, Sort(next))))
  }

  // A second input with a join of its own, by an index; and a query that joins it, and projects.
  function AnyInput(f: Forms, scan: Scan, inner: Scan): Plan {
    Plan(scan, Straight(f, Join(Cross, End, Plan(inner, End))))
  }

  function AnyQuery(f: Forms, g: Forms, s: seq<Scan>, i: nat, j: nat, es: seq<PrExpr>): Plan
    requires |s| == 3
  {
    Plan(s[0], Straight(f, Join(LeftOuter(i, j), Project(es, Collect), AnyInput(g, s[1], s[2]))))
  }

  const STRAIGHT: seq<nat> := [0, 1, 0, 1, 0]
  const JOINED: seq<nat> := [0, 1, 0, 1, 0, 0, 1, 0, 1, 0, 0, 7]

  // The projections there are: values as they are, and properties of nodes and relationships.
  predicate Projected(e: PrExpr) {
    || (e.ftype == FBoolean && e.id < 12)
    || (e.id in {0, 2, 4, 5, 7, 9, 10} && e.ftype in {FInt, FUint64, FString, FDate, FTime})
    || (e.id in {1, 3, 6, 8} && e.ftype in {FInt, FString, FDate, FTime})
  }

  // What is the same behind an operator as before it.
  lemma Behind(r: Rest)
    requires !r.Collect? && !r.End? && !r.Join?
    ensures HasJoin(r) <==> HasJoin(r.next)
    ensures HasJoin(r) ==> JoinRhs(r) == JoinRhs(r.next)
    ensures !r.Limit? ==> (OneLimit(r) <==> OneLimit(r.next)) && (HasLimit(r) <==> HasLimit(r.next))
  {
  }

  lemma LowerTyped(f: Forms, next: Rest, main: bool)
    requires Typed(next, STRAIGHT, main) && !HasVar(next)
    ensures Typed(Lower(f, next), [0, 1, 0], main)
  {
    var l := Limit(f.n, Sort(next));
    assert [0, 1, 0] + [1] == [0, 1, 0, 1] && [0, 1, 0, 1] + [0] == STRAIGHT;
    assert Typed(Sort(next), STRAIGHT, main) && !HasVar(Sort(next));
    assert Typed(l, STRAIGHT, main) && !HasVar(l);
    assert Typed(Lower(f, next).next, [0, 1, 0, 1], main) && !HasVar(Lower(f, next).next);
  }

  lemma StraightTyped(f: Forms, next: Rest, main: bool)
    requires f.qr in {0, 2} && Typed(next, STRAIGHT, main) && !HasVar(next)
    ensures Typed(Straight(f, next), [0], main)
  {
    hide Lower;
    LowerTyped(f, next, main);
    var fl := Filter(f.qr, f.key, f.arg, Lower(f, next));
    assert [0] + [1] == [0, 1] && [0, 1] + [0] == [0, 1, 0];
    assert Typed(fl, [0, 1, 0], main);
    assert Typed(Expand(f.out1, f.lbl2, fl), [0, 1], main);
  }

  lemma StraightTypes(f: Forms, next: Rest)
    ensures RestTypes(Straight(f, next)) == [1, 0, 1, 0] + RestTypes(next)
  {
    var l := Limit(f.n, Sort(next));
    assert RestTypes(Sort(next)) == RestTypes(next) && RestTypes(l) == RestTypes(next);
    assert RestTypes(Lower(f, next).next) == [0] + RestTypes(next);
    assert RestTypes(Lower(f, next)) == [1, 0] + RestTypes(next);
    var fl := Filter(f.qr, f.key, f.arg, Lower(f, next));
    assert RestTypes(fl) == [1, 0] + RestTypes(next);
    assert RestTypes(Expand(f.out1, f.lbl2, fl)) == [0, 1, 0] + RestTypes(next);
  }

  lemma StraightRest(f: Forms, next: Rest)
    requires !HasLimit(next) && OneLimit(next)
    ensures OneLimit(Straight(f, next)) && (HasJoin(Straight(f, next)) <==> HasJoin(next))
    ensures HasJoin(next) ==> JoinRhs(Straight(f, next)) == JoinRhs(next)
  {
    hide OneLimit, HasLimit, HasJoin, JoinRhs;
    var s, v := Sort(next), Lower(f, next);
    var l := Limit(f.n, s);
    Behind(s);
    Behind(l);
    OneBehind(l);
    Behind(v.next);
    Behind(v);
    var fl := Filter(f.qr, f.key, f.arg, v);
    Behind(fl);
    Behind(Expand(f.out1, f.lbl2, fl));
    Behind(Straight(f, next));
  }

  lemma OneBehind(r: Rest)
    requires r.Limit? && !HasLimit(r.next) && OneLimit(r.next)
    ensures OneLimit(r)
  {
  }

  lemma AnyInputTyped(f: Forms, scan: Scan, inner: Scan)
    requires f.qr in {0, 2}
    ensures var q := AnyInput(f, scan, inner);
            && RhsOk(q) && RhsTypes(q) == [0, 1, 0, 1, 0, 0] && OneLimit(q.rest)
            && Inputs(q.rest) == [Plan(inner, End)]
  {
    var end := Plan(inner, End);
    var j := Join(Cross, End, end);
    assert STRAIGHT + [0] == [0, 1, 0, 1, 0, 0];
    assert RestTypes(End) == [];
    assert RhsTypes(end) == [0] + RestTypes(End) == [0] && RhsOk(end);
    assert RestTypes(j) == RhsTypes(end) + RestTypes(End) == [0];
    assert Typed(End, STRAIGHT + [0], false) && !HasJoin(End) && !HasVar(End) && !HasLimit(End);
    assert Typed(j, STRAIGHT, false) && !HasVar(j) && !HasLimit(j) && HasJoin(j) && JoinRhs(j) == end;
    assert OneLimit(End) && OneLimit(j) && Inputs(End) == [];
    StraightTyped(f, j, false);
    StraightTypes(f, j);
    StraightRest(f, j);
    assert Inputs(AnyInput(f, scan, inner).rest) == [end] + Inputs(end.rest);
  }

  lemma ProjectsTyped(es: seq<PrExpr>)
    requires |es| <= 11 && forall e :: e in es ==> Projected(e)
    ensures Typed(Project(es, Collect), JOINED, true)
  {
    forall e | e in es
      ensures ExprOk(e, JOINED) && ExprType(e, JOINED) in {0, 1, 2, 4, 5, 6, 7, 8}
    {
    }
    assert forall i :: 0 <= i < |es| ==> es[i] in es && ExprTypes(es, JOINED)[i] == ExprType(es[i], JOINED);
  }

  /** A query with every operator in every form, in both pipelines, with every kind of projection, is one that the
      compiler is made for: whatever the directions, labels, keys, limits and hops. */
  lemma EveryOperator(w: World, f: Forms, g: Forms, s: seq<Scan>, i: nat, j: nat, es: seq<PrExpr>)
    requires |s| == 3 && f.qr in {0, 2} && g.qr in {0, 2} && i in {0, 2, 4} && j in {0, 2, 4, 5}
    requires |es| <= 11 && forall e :: e in es ==> Projected(e)
    requires GraphOk(w.g) && w.args == [NoArg] + PlanArgs(AnyQuery(f, g, s, i, j, es))
    ensures Runnable(w, AnyQuery(f, g, s, i, j, es)) && AllOneLimit(AnyQuery(f, g, s, i, j, es))
  {
    hide GraphOk, AnyInput, Straight, RhsTypes, RhsOk;
    var plan, q, pr := AnyQuery(f, g, s, i, j, es), AnyInput(g, s[1], s[2]), Project(es, Collect);
    var jn := Join(LeftOuter(i, j), pr, q);
    AnyInputTyped(g, s[1], s[2]);
    ProjectsTyped(es);
    assert STRAIGHT + RhsTypes(q) + [7] == JOINED;
    assert !HasJoin(Collect) && !HasVar(Collect) && !HasLimit(Collect);
    assert !HasJoin(pr) && !HasVar(pr) && !HasLimit(pr) && OneLimit(Collect) && OneLimit(pr);
    assert Typed(jn, STRAIGHT, true) && !HasVar(jn) && !HasLimit(jn) && OneLimit(jn) && HasJoin(jn) && JoinRhs(jn) == q;
    StraightTyped(f, jn, true);
    StraightRest(f, jn);
    QuerySize(f, g, s, i, j, es);
    QueryInputs(plan, q);
  }

  lemma QueryInputs(plan: Plan, q: Plan)
    requires HasJoin(plan.rest) && JoinRhs(plan.rest) == q && OneLimit(plan.rest) && OneLimit(q.rest)
    requires |Inputs(q.rest)| == 1 && OneLimit(Inputs(q.rest)[0].rest)
    ensures AllOneLimit(plan)
  {
    InputsOf(plan.rest);
    assert Inputs(plan.rest) == [q] + Inputs(q.rest);
  }

  lemma StraightArgs(f: Forms, next: Rest)
    ensures |RestArgs(Straight(f, next))| == 7 + |RestArgs(next)|
  {
    var l := Limit(f.n, Sort(next));
    assert |RestArgs(Sort(next))| == 1 + |RestArgs(next)| && |RestArgs(l)| == 2 + |RestArgs(next)|;
    assert |RestArgs(Lower(f, next))| == 4 + |RestArgs(next)|;
    var fl := Filter(f.qr, f.key, f.arg, Lower(f, next));
    assert |RestArgs(fl)| == 5 + |RestArgs(next)|;
  }

  lemma QuerySize(f: Forms, g: Forms, s: seq<Scan>, i: nat, j: nat, es: seq<PrExpr>)
    requires |s| == 3
    ensures |PlanArgs(AnyQuery(f, g, s, i, j, es))| <= 63
  {
    hide Straight;
    var end := Plan(s[2], End);
    var q := AnyInput(g, s[1], s[2]);
    StraightArgs(g, Join(Cross, End, end));
    assert RestArgs(End) == [] && RestArgs(Collect) == [] && RestArgs(Project(es, Collect)) == [] + [];
    StraightArgs(f, Join(LeftOuter(i, j), Project(es, Collect), q));
  }

  // ----- the queue of join ids -----

  /** The plans the compiler is made for are among those of which the pairing of join ids is characterized. */
  lemma {:induction false} TypedEnds(r: Rest, types: seq<nat>, main: bool)
    requires Typed(r, types, main)
    ensures JoinQueue.WellEnded(r) && JoinQueue.SingleJoins(r)
    decreases r
  {
    hide RhsTypes;
    match r
    case Foreach(_, _, _, _, next) => TypedEnds(next, types + [1], main);
    case Expand(_, _, next) => TypedEnds(next, types + [0], main);
    case Filter(_, _, _, next) => TypedEnds(next, types, main);
    case Project(es, next) => TypedEnds(next, ExprTypes(es, types), main);
    case Limit(_, next) => TypedEnds(next, types, main);
    case Sort(next) => TypedEnds(next, types, main);
    case Join(kind, lhs, rhs) =>
      TypedEnds(lhs, if kind == Cross then types + RhsTypes(rhs) else types + RhsTypes(rhs) + [7], main);
      TypedEnds(rhs.rest, [0], false);
      TypedSingle(rhs.rest, [0], false);
    case Collect =>
    case End =>
  }

  // ----- what stops half-way -----

  // The plans of which leftovers are characterized: any traversal of several hops, and then all pairs.
  lemma BehindAny(scan: Scan, d: Dir, min: int, max: int, lbl: string, q: Plan)
    ensures BehindVar(Plan(scan, Foreach(d, min, max, lbl, Join(Cross, Collect, q))), q) <==> min != 0 || max != 0
  {
  }
}
