/** Where the emitted function answers something else than the plan means, and exactly when: a traversal left
    half-way, a second run, two Limits. */
module Deviations {
  import opened Storage
  import opened Runtime
  import opened Machine
  import opened Plan
  import opened Algebra
  import opened TupleAtATime
  import opened Runs
  import opened Correctness
  import opened TwoJoins

  // ----- a traversal left half-way -----

  // More tuples than a plan means make other rows.
  lemma MoreRows(g: Graph, before: seq<Row>, a: seq<Tuple>, b: seq<Tuple>)
    requires a == b || |a| != |b|
    ensures before + RowsOf(g, a) == before + RowsOf(g, b) <==> a == b
  {
    assert |before + RowsOf(g, a)| == |before| + |a|;
    assert |before + RowsOf(g, b)| == |before| + |b|;
  }

  /** A traversal left half-way, in the emitted function: if the plan's own traversal comes first and its tuples are
      paired with the rows of the input, the rows appended are the plan's if and only if no pipeline of the
      input stops half-way, or the scan or the input is empty. */
  lemma LeftoverEmitted(w: World, plan: Plan, q: Plan, s: State) returns (s1: State)
    requires Startable(w, plan, s.rt) && Fresh(w, plan, s.rt)
    requires BehindVar(plan, q) && AllOneLimit(q) && Settled(w, q)
    ensures var rows := s.rt.rows + RowsOf(w.g, RunFrom(w, plan, s.rt).emit);
            && Ends(w, plan, s, false, rows, s1)
            && (rows == Answer(w, plan, s.rt.rows)
                <==> !Halves(w, q) || ScanTuples(w, plan.scan) == [] || Eval(w, q).ts == [])
  {
    hide Eval, Ends, RowsOf, Running, Settled, AllOneLimit, GraphOk, ArgsFrom, Clean, Halves, InputsAfter,
         ScanTuples, Sound, AllEmpty, Contents;
    assert HasJoin(plan.rest.next) && JoinRhs(plan.rest.next) == q && JoinRhs(plan.rest) == q;
    TypedSingle(plan.rest, [0], true);
    s1 := CompilerRuns(w, plan, s);
    LeftoverIff(w, plan, q, Held(plan, s.rt));
    MoreRows(w.g, s.rt.rows, RunFrom(w, plan, s.rt).emit, Eval(w, plan).ts);
  }

  // One node, found through an index, from which a variable-hop traversal gathers two relationships.
  function HopGraph(): Graph {
    EmptyGraph().(varHop := (p, code, min, max) => [7, 8], index := (l, k, v) => Some(0))
  }

  function Hops(next: Rest): Plan {
    Plan(ScanIndex("a", "k", 0), Foreach(From, 1, 2, "b", next))
  }

  // The pairs of its relationships with at most n of them.
  function HopPairs(n: nat): Plan {
    Hops(Pairs(Hops(Limit(n, End))))
  }

  function HopWorld(n: nat, finish: seq<Row> -> seq<Row>): World {
    World(HopGraph(), [NoArg] + PlanArgs(HopPairs(n)), finish)
  }

  // What the input means: the first n of two rows; with n below two its Limit is reached.
  lemma HopInput(w: World, n: nat)
    requires w.g == HopGraph() && n < TWO_64
    ensures var q := Hops(Limit(n, End));
            && |Eval(w, q).ts| == (if n < 2 then n else 2) && (Halves(w, q) <==> n < 2)
            && ScanTuples(w, q.scan) == [[NodeV(0)]]
  {
    var q, ts := Hops(Limit(n, End)), [[NodeV(0)]];
    var r := q.rest;
    assert ScanTuples(w, q.scan) == ts;
    assert Gathered(w.g, r, ts[0]) == [7, 8];
    var two := IdTuples(ts[0], [7, 8]);
    IdCount(ts[0], [7, 8]);
    assert ts[1..] == [];
    assert FlatMap(w.g, r, ts, []) == NextTuples(w.g, r, ts[0], []) + FlatMap(w.g, r, [], []);
    assert FlatMap(w.g, r, ts, []) == two;
    var s1 := Stream(two, false);
    assert Apply(w, r, Stream(ts, false)) == s1;
    assert Denote(w, End, Take(s1, n)) == Take(s1, n);
    assert Denote(w, r.next, s1) == Take(s1, n);
    assert Denote(w, r, Stream(ts, false)) == Take(s1, n);
    assert !Overfull(w, End, Take(s1, n));
    assert Overfull(w, r.next, s1) <==> 2 > n;
    assert HasLimit(r.next);
    assert !HasJoin(End) && !HasJoin(r.next) && Inputs(r) == [];
  }

  lemma HopTyped(n: nat)
    ensures var q := Hops(Limit(n, End)); Typed(q.rest, [0], false) && AllOneLimit(q) && !HasJoin(q.rest)
    ensures Typed(HopPairs(n).rest, [0], true) && HasJoin(HopPairs(n).rest)
    ensures JoinRhs(HopPairs(n).rest) == Hops(Limit(n, End)) && Inputs(HopPairs(n).rest) == [Hops(Limit(n, End))]
  {
    var q, r := Hops(Limit(n, End)), HopPairs(n).rest;
    assert [0] + [1] == [0, 1] && [0, 1] + [0, 1] == [0, 1, 0, 1];
    assert Typed(End, [0, 1], false) && Typed(q.rest.next, [0, 1], false) && !HasVar(End) && !HasVar(q.rest.next);
    assert Typed(q.rest, [0], false);
    assert RestTypes(End) == [] && RestTypes(q.rest.next) == [] && RestTypes(q.rest) == [1] + [];
    assert RhsTypes(q) == [0, 1];
    assert Typed(Collect, [0, 1, 0, 1], true) && !HasVar(Collect) && !HasJoin(Collect) && !HasVar(r.next);
    assert Typed(r.next, [0, 1], true);
    assert OneLimit(End) && OneLimit(q.rest.next);
    assert !HasJoin(End) && !HasJoin(q.rest.next) && Inputs(q.rest) == [];
    assert HasJoin(r.next) && JoinRhs(r.next) == q;
    assert HasJoin(r) && JoinRhs(r) == q && Inputs(r) == [q] + Inputs(q.rest);
  }

  /** The pairs of a node's two relationships with at most n of them: the emitted function gets them right for every
      limit but one. There the input stops half-way, and the outer traversal takes what is left as well. */
  lemma OneIsWrong(n: nat, finish: seq<Row> -> seq<Row>, s: State) returns (s1: State)
    requires n < TWO_64 && Fresh(HopWorld(n, finish), HopPairs(n), s.rt)
    ensures var w, plan := HopWorld(n, finish), HopPairs(n);
            var rows := s.rt.rows + RowsOf(w.g, RunFrom(w, plan, s.rt).emit);
            && Startable(w, plan, s.rt) && Ends(w, plan, s, false, rows, s1)
            && (rows == Answer(w, plan, s.rt.rows) <==> n != 1)
  {
    hide Eval, Ends, RowsOf, Running, GraphOk, Clean, Halves, ScanTuples, Typed, Entry;
    var w, plan, q := HopWorld(n, finish), HopPairs(n), Hops(Limit(n, End));
    EmptyGraphOk(w.g);
    HopTyped(n);
    HopInput(w, n);
    HopSound(w, n, Held(plan, s.rt));
    assert Settled(w, q);
    s1 := LeftoverEmitted(w, plan, q, s);
  }

  lemma HopSound(w: World, n: nat, had: seq<seq<Tuple>>)
    requires w.g == HopGraph() && n < TWO_64 && |had| == |Inputs(HopPairs(n).rest)| && AllEmpty(had)
    ensures Sound(w, HopPairs(n), [], had) && ArgsFrom([NoArg] + PlanArgs(HopPairs(n)), 1, PlanArgs(HopPairs(n)))
    ensures |PlanArgs(HopPairs(n))| == 9
  {
    hide Eval, Typed, ScanTuples;
    var plan, q := HopPairs(n), Hops(Limit(n, End));
    HopTyped(n);
    HopInput(w, n);
    RunsMean(w, q, false, had[1..]);
    assert Sound(w, q, [], had[1..]);
    assert RestArgs(End) == [] && RestArgs(q.rest.next) == [NoArg] + [];
    assert |RestArgs(q.rest)| == 2 && |PlanArgs(q)| == 5;
    assert RestArgs(Collect) == [] && |RestArgs(plan.rest.next)| == 5 && |RestArgs(plan.rest)| == 6;
  }

  // ----- two joins in a row -----

  // A node's relationships, as an input without a Limit.
  function HopRows(): Plan {
    Hops(End)
  }

  function ThreeHops(): Plan {
    Plan(ScanIndex("a", "k", 0), Twice(HopRows(), HopRows()))
  }

  function ThreeWorld(finish: seq<Row> -> seq<Row>): World {
    World(HopGraph(), [NoArg] + PlanArgs(ThreeHops()), finish)
  }

  lemma HopRowsMean(w: World)
    requires w.g == HopGraph()
    ensures var q := HopRows();
            && RhsOk(q) && AllOneLimit(q) && !HasJoin(q.rest) && !Halves(w, q) && |Eval(w, q).ts| == 2
            && ScanTuples(w, q.scan) == [[NodeV(0)]] && |PlanArgs(q)| == 4
  {
    var q, ts := HopRows(), [[NodeV(0)]];
    var r := q.rest;
    assert [0] + [1] == [0, 1] && Typed(End, [0, 1], false) && !HasVar(End) && !HasLimit(End) && OneLimit(End);
    assert !HasJoin(End) && Inputs(r) == [] && RestArgs(End) == [] && |RestArgs(r)| == 1;
    assert Gathered(w.g, r, ts[0]) == [7, 8];
    IdCount(ts[0], [7, 8]);
    assert ts[1..] == [];
    assert FlatMap(w.g, r, ts, []) == NextTuples(w.g, r, ts[0], []) + FlatMap(w.g, r, [], []);
    assert FlatMap(w.g, r, ts, []) == IdTuples(ts[0], [7, 8]);
    var s1 := Stream(IdTuples(ts[0], [7, 8]), false);
    assert Apply(w, r, Stream(ts, false)) == s1;
    assert Denote(w, End, s1) == s1;
    assert Denote(w, r, Stream(ts, false)) == s1;
  }

  // A failing input: of the four pairs of two inputs with two rows each, two come out.
  lemma TwoByTwoIsWrong(finish: seq<Row> -> seq<Row>, s: State) returns (s1: State)
    requires Clean(HopGraph(), s.rt) && s.rt.fevList == [] && RhsAt(s.rt, 0) == [] && RhsAt(s.rt, 1) == []
    ensures exists rows ::
              Ends(ThreeWorld(finish), ThreeHops(), s, false, rows, s1)
              && rows != Answer(ThreeWorld(finish), ThreeHops(), s.rt.rows)
  {
    hide Eval, Ends, RowsOf, FlatMap, GraphOk, Clean, Halves, ScanTuples, Typed;
    var w, q := ThreeWorld(finish), HopRows();
    EmptyGraphOk(w.g);
    HopRowsMean(w);
    assert RestArgs(Collect) == [] && |RestArgs(Pairs(q))| == 4 && |RestArgs(Twice(q, q))| == 8;
    s1 := TwoJoinsEmitted(w, ThreeHops().scan, q, q, s);
    assert !Harmless(w.g, ScanTuples(w, q.scan), Eval(w, q).ts, Eval(w, q).ts);
  }

  // ----- a second run -----

  /** A query run a second time: it pairs its scan with the input's rows of both runs, and appends the plan's rows
      if and only if there are no pairs. */
  lemma SecondRunEmitted(w: World, scan: Scan, q: Plan, s: State) returns (s1: State, s2: State)
    requires Faithful(w, Plan(scan, Pairs(q))) && Fresh(w, Plan(scan, Pairs(q)), s.rt)
    requires !HasJoin(q.rest) && !Halves(w, Plan(scan, Pairs(q))) && 2 * |Eval(w, q).ts| < MAX_ROWS
    ensures var plan, ts, rows := Plan(scan, Pairs(q)), ScanTuples(w, scan), Eval(w, q).ts;
            var twice := s1.rt.rows + RowsOf(w.g, FlatMap(w.g, Pairs(q), ts, rows + rows));
            && Ends(w, plan, s, false, Answer(w, plan, s.rt.rows), s1) && Ends(w, plan, s1, false, twice, s2)
            && (twice == Answer(w, plan, s1.rt.rows) <==> ts == [] || rows == [])
  {
    hide Eval, Ends, RowsOf, Running, Typed, GraphOk, ArgsFrom, Clean, Halves, InputsAfter, ScanTuples, Sound,
         Settled, AllEmpty, FlatMap, AllOneLimit;
    var plan, rows := Plan(scan, Pairs(q)), Eval(w, q).ts;
    var had := Held(plan, s.rt);
    FreshStarts(w, plan, s.rt);
    EvalPairs(w, scan, q);
    RunsMean(w, plan, true, had);
    s1 := CompilerRuns(w, plan, s);
    PairsAgain(w, scan, q, had);
    s2 := CompilerRuns(w, plan, s1);
    SecondRunIff(w, scan, q);
    MoreRows(w.g, s1.rt.rows, RunFrom(w, plan, s1.rt).emit, Eval(w, plan).ts);
  }

  // ----- two Limits -----

  /** Two Limits one behind the other, in the emitted function: it appends as many of the scan's tuples as
      the shared counter lets through, which are the plan's rows if and only if that is as many as the smaller
      limit, or there are too few tuples for either to matter. */
  lemma TwoLimitsEmitted(w: World, scan: Scan, m: int, n: int, s: State) returns (s1: State)
    requires Startable(w, Plan(scan, BothLimits(m, n)), s.rt)
    ensures var plan, ts := Plan(scan, BothLimits(m, n)), ScanTuples(w, scan);
            var stop := StopsAfter(m % TWO_64, n % TWO_64);
            var low := Smaller(m % TWO_64, n % TWO_64);
            var rows := s.rt.rows + RowsOf(w.g, CutAt(ts, stop));
            && Ends(w, plan, s, false, rows, s1)
            && (rows == Answer(w, plan, s.rt.rows)
                <==> stop == Some(low) || (|ts| <= low && (stop.Some? ==> |ts| <= stop.value)))
  {
    hide Ends, Startable, InputsAfter, PushAll, Denote, ScanTuples, BothLimits, StopsAfter, CutAt, RowsOf, Smaller,
         Clean;
    var plan, st := Plan(scan, BothLimits(m, n)), Stream(ScanTuples(w, scan), false);
    var stop, low, k := StopsAfter(m % TWO_64, n % TWO_64), Smaller(m % TWO_64, n % TWO_64), Flow(0, s.rt.fevList, []);
    s1 := CompilerRuns(w, plan, s);
    LimitsRun(w, scan, m, n, s.rt);
    TwoLimitsIff(w, m, n, st, k);
    TwoLimitsQuiet(w, m, n, st, k);
    CutRows(w.g, s.rt.rows, st.ts, stop, Some(low));
    assert Answer(w, plan, s.rt.rows) == s.rt.rows + RowsOf(w.g, CutAt(st.ts, Some(low)));
  }

  lemma LimitsRun(w: World, scan: Scan, m: int, n: int, rt: Rt)
    ensures RunFrom(w, Plan(scan, BothLimits(m, n)), rt)
            == PushAll(w, BothLimits(m, n), ScanTuples(w, scan), Flow(0, rt.fevList, []))
  {
    hide PushAll, ScanTuples;
    var plan := Plan(scan, BothLimits(m, n));
    assert !HasJoin(Collect) && !HasJoin(Limit(n, Collect)) && !HasJoin(plan.rest);
    assert Entry(w, plan, rt.fevList, Held(plan, rt)) == Flow(0, rt.fevList, []);
  }

  // Without projections nothing raises.
  lemma TwoLimitsQuiet(w: World, m: int, n: int, s: Stream, k: Flow)
    requires !s.threw && k.count == 0
    ensures PushAll(w, BothLimits(m, n), s.ts, k).exit != Raised && !Denote(w, BothLimits(m, n), s).threw
  {
    hide StopsAfter, PushAll;
    TwoLimitsRun(w, m, n, s.ts, 0, k);
    assert Denote(w, Limit(n, Collect), Take(s, m % TWO_64)) == Take(Take(s, m % TWO_64), n % TWO_64);
  }

  // Rows cut at different places differ.
  lemma CutRows(g: Graph, before: seq<Row>, ts: seq<Tuple>, a: Option<nat>, b: Option<nat>)
    ensures before + RowsOf(g, CutAt(ts, a)) == before + RowsOf(g, CutAt(ts, b)) <==> CutAt(ts, a) == CutAt(ts, b)
  {
    assert |before + RowsOf(g, CutAt(ts, a))| == |before| + |CutAt(ts, a)|;
    assert |before + RowsOf(g, CutAt(ts, b))| == |before| + |CutAt(ts, b)|;
    assert |CutAt(ts, a)| == |CutAt(ts, b)| ==> CutAt(ts, a) == CutAt(ts, b);
  }
}
