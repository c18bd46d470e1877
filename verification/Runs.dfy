/** The runs of whole queries, driven tuple by tuple: the second inputs first, innermost first, then each plan's
    own pipeline. What a run finds in the list of variable-hop traversals and in the inputs of joins counts. */
module Runs {
  import opened Storage
  import opened Runtime
  import opened Machine
  import opened Plan
  import opened Algebra
  import opened TupleAtATime
  import opened Kinds

  /** The outcome of a plan's own pipeline. When the run starts the list holds `left`, and the inputs of the
      joins, outermost first, hold `had`. */
  ghost function Running(w: World, plan: Plan, left: seq<nat>, had: seq<seq<Tuple>>): Outcome
    requires |had| == |Inputs(plan.rest)|
    decreases plan, 1
  {
    PushAll(w, plan.rest, ScanTuples(w, plan.scan), Entry(w, plan, left, had))
  }

  // What the own pipeline finds: the second input's rows are behind those that were there.
  ghost function Entry(w: World, plan: Plan, left: seq<nat>, had: seq<seq<Tuple>>): Flow
    requires |had| == |Inputs(plan.rest)|
    decreases plan, 0
  {
    if HasJoin(plan.rest) then
      RhsSmaller(plan.rest);
      var o := Running(w, JoinRhs(plan.rest), left, had[1..]);
      Flow(0, o.k.left, had[0] + o.emit)
    else Flow(0, left, [])
  }

  // What the inputs of the joins hold afterwards.
  ghost function InputsAfter(w: World, plan: Plan, left: seq<nat>, had: seq<seq<Tuple>>): (after: seq<seq<Tuple>>)
    requires |had| == |Inputs(plan.rest)|
    ensures |after| == |had|
    decreases plan
  {
    if HasJoin(plan.rest) then
      RhsSmaller(plan.rest);
      [Entry(w, plan, left, had).input] + InputsAfter(w, JoinRhs(plan.rest), left, had[1..])
    else []
  }

  // The rows of the inputs can be counted, and are of the kinds that are read.
  ghost predicate Sound(w: World, plan: Plan, left: seq<nat>, had: seq<seq<Tuple>>)
    requires |had| == |Inputs(plan.rest)|
    decreases plan
  {
    if HasJoin(plan.rest) then
      RhsSmaller(plan.rest);
      var q := JoinRhs(plan.rest);
      AllKinds(RhsTypes(q), had[0]) && |Entry(w, plan, left, had).input| < MAX_ROWS && Sound(w, q, left, had[1..])
    else true
  }

  // One step down the chain of inputs.
  lemma Unfolded(w: World, plan: Plan, left: seq<nat>, had: seq<seq<Tuple>>)
    requires |had| == |Inputs(plan.rest)| && Sound(w, plan, left, had)
    ensures Running(w, plan, left, had)
            == PushAll(w, plan.rest, ScanTuples(w, plan.scan), Entry(w, plan, left, had))
    ensures HasJoin(plan.rest) ==>
              var q, k := JoinRhs(plan.rest), Entry(w, plan, left, had);
              && |had| == 1 + |Inputs(q.rest)| && Sound(w, q, left, had[1..])
              && InputsAfter(w, plan, left, had) == [k.input] + InputsAfter(w, q, left, had[1..])
    ensures !HasJoin(plan.rest) ==>
              had == [] && Entry(w, plan, left, had) == Flow(0, left, []) && InputsAfter(w, plan, left, had) == []
  {
    hide PushAll, ScanTuples, AllKinds;
  }

  lemma ScanKinds(w: World, scan: Scan)
    ensures AllKinds([0], ScanTuples(w, scan))
  {
    if scan.ScanLabel? {
      LabelKinds(w.g, w.g.code(scan.lbl), w.g.nodes);
    }
  }

  // A second input makes tuples of its kinds and does not raise.
  lemma {:induction false} RunningKinds(w: World, plan: Plan, left: seq<nat>, had: seq<seq<Tuple>>)
    requires |had| == |Inputs(plan.rest)| && RhsOk(plan) && Sound(w, plan, left, had)
    ensures AllKinds(RhsTypes(plan), Running(w, plan, left, had).emit) && Running(w, plan, left, had).exit != Raised
    ensures InputKinds(plan.rest, Entry(w, plan, left, had).input)
    decreases plan
  {
    hide Typed, PushAll, AllKinds, ScanTuples;
    TypedSingle(plan.rest, [0], false);
    EntryKinds(w, plan, left, had);
    ScanKinds(w, plan.scan);
    PushAllKinds(w, plan.rest, [0], ScanTuples(w, plan.scan), Entry(w, plan, left, had));
  }

  lemma {:induction false} EntryKinds(w: World, plan: Plan, left: seq<nat>, had: seq<seq<Tuple>>)
    requires |had| == |Inputs(plan.rest)| && Sound(w, plan, left, had)
    requires HasJoin(plan.rest) ==> RhsOk(JoinRhs(plan.rest))
    ensures InputKinds(plan.rest, Entry(w, plan, left, had).input)
    decreases plan, 0
  {
    hide RhsOk, AllKinds, Running;
    if HasJoin(plan.rest) {
      RhsSmaller(plan.rest);
      var q := JoinRhs(plan.rest);
      RunningKinds(w, q, left, had[1..]);
      AllAppend(RhsTypes(q), had[0], Running(w, q, left, had[1..]).emit);
    }
  }

  // ----- runs that start with nothing left over -----

  // A Limit below a variable-hop traversal is reached, and leaves the traversal half-way.
  ghost predicate HalfWay(w: World, plan: Plan) {
    LimitUnderVar(plan.rest) && Overfull(w, plan.rest, Stream(ScanTuples(w, plan.scan), false))
  }

  // This pipeline or one of its inputs does.
  ghost predicate Halves(w: World, plan: Plan) {
    HalfWay(w, plan) || exists i :: 0 <= i < |Inputs(plan.rest)| && HalfWay(w, Inputs(plan.rest)[i])
  }

  /** No pipeline leaves a traversal half-way if a pipeline that runs after it has one. */
  ghost predicate Settled(w: World, plan: Plan)
    decreases plan
  {
    if HasJoin(plan.rest) then
      RhsSmaller(plan.rest);
      var q := JoinRhs(plan.rest);
      (HasVar(plan.rest) ==> !Halves(w, q)) && Settled(w, q)
    else true
  }

  // Join inputs are counted by a 32-bit int.
  ghost predicate SmallInputs(w: World, plan: Plan) {
    forall i :: 0 <= i < |Inputs(plan.rest)| ==> |Eval(w, Inputs(plan.rest)[i]).ts| < MAX_ROWS
  }

  predicate AllEmpty(had: seq<seq<Tuple>>) {
    forall i :: 0 <= i < |had| ==> had[i] == []
  }

  lemma InputsOf(r: Rest)
    requires HasJoin(r)
    ensures var ps := Inputs(r); ps != [] && ps[0] == JoinRhs(r) && ps[1..] == Inputs(JoinRhs(r).rest)
  {
  }

  lemma HalvesBelow(w: World, plan: Plan)
    requires HasJoin(plan.rest)
    ensures Halves(w, plan) <==> HalfWay(w, plan) || Halves(w, JoinRhs(plan.rest))
  {
    hide HalfWay;
    InputsOf(plan.rest);
    var ps, qs := Inputs(plan.rest), Inputs(JoinRhs(plan.rest).rest);
    if i :| 0 <= i < |ps| && HalfWay(w, ps[i]) {
      assert i > 0 ==> HalfWay(w, qs[i - 1]);
    }
    if i :| 0 <= i < |qs| && HalfWay(w, qs[i]) {
      assert HalfWay(w, ps[i + 1]);
    }
    if HalfWay(w, JoinRhs(plan.rest)) {
      assert HalfWay(w, ps[0]);
    }
  }

  lemma LimitsBelow(plan: Plan)
    requires HasJoin(plan.rest) && AllOneLimit(plan)
    ensures AllOneLimit(JoinRhs(plan.rest))
  {
    InputsOf(plan.rest);
    var ps, qs := Inputs(plan.rest), Inputs(JoinRhs(plan.rest).rest);
    assert OneLimit(ps[0].rest);
    assert forall i :: 0 <= i < |qs| ==> qs[i] == ps[i + 1];
  }

  lemma {:induction false} FeedsJoin(w: World, r: Rest, rows: seq<Tuple>)
    requires OneJoin(r) && (HasJoin(r) ==> rows == Eval(w, JoinRhs(r)).ts)
    ensures Feeds(w, r, rows)
    decreases r
  {
    hide Eval;
    if !r.Collect? && !r.End? {
      FeedsJoin(w, Tail(r), rows);
    }
  }

  /** From an empty list and empty inputs, a plan that leaves no later traversal half-way makes exactly what it
      means; and it leaves something in the list if and only if one of its pipelines stops half-way. */
  lemma {:induction false} RunsMean(w: World, plan: Plan, main: bool, had: seq<seq<Tuple>>)
    requires Typed(plan.rest, [0], main) && AllOneLimit(plan) && Settled(w, plan)
    requires |had| == |Inputs(plan.rest)| && AllEmpty(had)
    ensures var o := Running(w, plan, [], had);
            && o.emit == Eval(w, plan).ts && (o.exit == Raised <==> Eval(w, plan).threw)
            && (!Eval(w, plan).threw ==> (o.k.left == [] <==> !Halves(w, plan)))
    ensures HasJoin(plan.rest) ==> Entry(w, plan, [], had).input == Eval(w, JoinRhs(plan.rest)).ts
    decreases plan
  {
    hide Typed, Eval, Halves, PushAll, AllOneLimit;
    TypedSingle(plan.rest, [0], main);
    if HasJoin(plan.rest) {
      var q := JoinRhs(plan.rest);
      RhsSmaller(plan.rest);
      LimitsBelow(plan);
      HalvesBelow(w, plan);
      RunsMean(w, q, false, had[1..]);
      PlanKinds(w, q);
      assert [] + Eval(w, q).ts == Eval(w, q).ts;
    }
    OwnMeans(w, plan, Entry(w, plan, [], had));
    if !HasJoin(plan.rest) {
      NoInputs(w, plan);
    }
  }

  lemma NoInputs(w: World, plan: Plan)
    requires !HasJoin(plan.rest)
    ensures Halves(w, plan) <==> HalfWay(w, plan)
  {
  }

  // The own pipeline. Without a traversal the list is carried through.
  lemma OwnMeans(w: World, plan: Plan, k: Flow)
    requires OneJoin(plan.rest) && OneVar(plan.rest) && AllOneLimit(plan) && k.count == 0
    requires (HasJoin(plan.rest) ==> k.input == Eval(w, JoinRhs(plan.rest)).ts) && (HasVar(plan.rest) ==> k.left == [])
    ensures var o := PushAll(w, plan.rest, ScanTuples(w, plan.scan), k);
            && o.emit == Eval(w, plan).ts && (o.exit == Raised <==> Eval(w, plan).threw)
            && (!Eval(w, plan).threw ==> (o.k.left == [] <==> k.left == [] && !HalfWay(w, plan)))
  {
    hide PushAll, ScanTuples, Overfull, Denote;
    var s, k0 := Stream(ScanTuples(w, plan.scan), false), k.(left := []);
    FeedsJoin(w, plan.rest, k.input);
    PushRefinesDenote(w, plan.rest, s, k0);
    if HasVar(plan.rest) {
      if !Eval(w, plan).threw {
        LeftBehind(w, plan.rest, s, k0);
      }
    } else {
      NoVarAll(w, plan.rest, s.ts, k, []);
      if LimitUnderVar(plan.rest) {
        UnderNeedsLimit(plan.rest);
      }
    }
  }

  // The inputs then hold what they mean.
  lemma {:induction false} InputsMean(w: World, plan: Plan, main: bool, had: seq<seq<Tuple>>)
    requires Typed(plan.rest, [0], main) && AllOneLimit(plan) && Settled(w, plan)
    requires |had| == |Inputs(plan.rest)| && AllEmpty(had)
    ensures forall i :: 0 <= i < |had| ==> InputsAfter(w, plan, [], had)[i] == Eval(w, Inputs(plan.rest)[i]).ts
    ensures SmallInputs(w, plan) ==> Sound(w, plan, [], had)
    decreases plan
  {
    hide Typed, Eval, Halves, PushAll, AllOneLimit, Entry, HasJoin, JoinRhs, HasVar;
    TypedSingle(plan.rest, [0], main);
    if HasJoin(plan.rest) {
      var q := JoinRhs(plan.rest);
      RhsSmaller(plan.rest);
      LimitsBelow(plan);
      InputsOf(plan.rest);
      InputsMean(w, q, false, had[1..]);
      RunsMean(w, plan, main, had);
      var ps := Inputs(plan.rest);
      assert forall i :: 0 <= i < |ps[1..]| ==> ps[1..][i] == ps[i + 1];
      if SmallInputs(w, plan) {
        assert |Eval(w, ps[0]).ts| < MAX_ROWS;
        assert Sound(w, q, [], had[1..]);
      }
    }
  }

  // ----- what is left over -----

  lemma {:induction false} IdCount(t: Tuple, ids: seq<nat>)
    ensures |IdTuples(t, ids)| == |ids|
    decreases |ids|
  {
    if ids != [] {
      IdCount(t, ids[1..]);
    }
  }

  lemma {:induction false} PairCount(g: Graph, r: Rest, ts: seq<Tuple>, rows: seq<Tuple>)
    requires r.Join? && r.kind == Cross
    ensures |FlatMap(g, r, ts, rows)| == |ts| * |rows|
    decreases |ts|
  {
    if ts != [] {
      CrossCount(ts[0], rows);
      PairCount(g, r, ts[1..], rows);
    }
  }

  lemma {:induction false} CrossCount(t: Tuple, rows: seq<Tuple>)
    ensures |CrossTuples(t, rows)| == |rows|
    decreases |rows|
  {
    if rows != [] {
      CrossCount(t, rows[1..]);
    }
  }

  // All pairs with the tuples of a second input.
  function Pairs(q: Plan): Rest {
    Join(Cross, Collect, q)
  }

  lemma PairsRun(w: World, q: Plan, ts: seq<Tuple>, k: Flow)
    ensures PushAll(w, Pairs(q), ts, k) == Outcome(FlatMap(w.g, Pairs(q), ts, k.input), k, Back)
    ensures |PushAll(w, Pairs(q), ts, k).emit| == |ts| * |k.input|
  {
    hide PushAll, FlatMap;
    FuseFlat(w, Pairs(q), ts, k);
    EmitAll(w, Collect, FlatMap(w.g, Pairs(q), ts, k.input), k);
    PairCount(w.g, Pairs(q), ts, k.input);
  }

  // The first activation takes what is left.
  lemma FirstTakes(w: World, r: Rest, q: Plan, t: Tuple, k: Flow)
    requires r.Foreach? && IsVariable(r) && r.next == Pairs(q)
    ensures var o := Push(w, r, t, k);
            && o.exit == Back && o.k == k.(left := [])
            && |o.emit| == (|k.left| + |Gathered(w.g, r, t)|) * |k.input|
  {
    hide PushAll, Gathered;
    var list := k.left + Gathered(w.g, r, t);
    PairsRun(w, q, IdTuples(t, list), k.(left := list));
    IdCount(t, list);
  }

  // The plan's own pipeline makes that many tuples more than from an empty list.
  lemma TakesMore(w: World, r: Rest, q: Plan, ts: seq<Tuple>, k: Flow)
    requires r.Foreach? && IsVariable(r) && r.next == Pairs(q)
    ensures var o, o0 := PushAll(w, r, ts, k), PushAll(w, r, ts, k.(left := []));
            |o.emit| == |o0.emit| + (if ts == [] then 0 else |k.left| * |k.input|)
  {
    hide Push, Gathered;
    if ts != [] {
      FirstTakes(w, r, q, ts[0], k);
      FirstTakes(w, r, q, ts[0], k.(left := []));
      Distributes(|k.left|, |Gathered(w.g, r, ts[0])|, |k.input|);
    }
  }

  lemma Distributes(a: nat, b: nat, c: nat)
    ensures (a + b) * c == a * c + b * c
  {
  }

  // A traversal in front of the join of an input.
  predicate BehindVar(plan: Plan, q: Plan) {
    plan.rest.Foreach? && IsVariable(plan.rest) && plan.rest.next == Pairs(q)
  }

  /** What a traversal left half-way does to a later one, when that one's plan pairs its tuples with the rows of the
      input that left it: the run makes what the plan means if and only if no pipeline of the input stops
      half-way, or the scan or the input is empty. Otherwise it makes more. */
  lemma LeftoverIff(w: World, plan: Plan, q: Plan, had: seq<seq<Tuple>>)
    requires BehindVar(plan, q) && Typed(q.rest, [0], false) && AllOneLimit(q) && Settled(w, q)
    requires |had| == |Inputs(plan.rest)| && AllEmpty(had)
    ensures var o, e := Running(w, plan, [], had), Eval(w, plan);
            && o.exit == Back && !e.threw
            && (o.emit == e.ts <==> !Halves(w, q) || ScanTuples(w, plan.scan) == [] || Eval(w, q).ts == [])
            && (o.emit == e.ts || |o.emit| > |e.ts|)
  {
    hide Typed, Eval, Halves, PushAll, ScanTuples, Settled;
    var ts, k := ScanTuples(w, plan.scan), Entry(w, plan, [], had);
    var k0 := k.(left := []);
    assert HasJoin(plan.rest.next) && JoinRhs(plan.rest.next) == q && JoinRhs(plan.rest) == q;
    RunsMean(w, q, false, had[1..]);
    PlanKinds(w, q);
    assert [] + Eval(w, q).ts == Eval(w, q).ts;
    OwnBehind(w, plan, q, k0);
    TakesMore(w, plan.rest, q, ts, k);
    BackBehind(w, plan.rest, q, ts, k);
    BackBehind(w, plan.rest, q, ts, k0);
    if ts == [] {
      PushAllNone(w, plan.rest, k);
      PushAllNone(w, plan.rest, k0);
    } else if k.left == [] {
      assert k == k0;
    } else if k.input != [] {
      assert |k.left| * |k.input| > 0;
    } else {
      NothingToPair(w, plan.rest, q, ts, k);
      NothingToPair(w, plan.rest, q, ts, k0);
    }
  }

  lemma {:induction false} BackBehind(w: World, r: Rest, q: Plan, ts: seq<Tuple>, k: Flow)
    requires r.Foreach? && IsVariable(r) && r.next == Pairs(q)
    ensures PushAll(w, r, ts, k).exit == Back
    decreases |ts|
  {
    hide Push;
    if ts != [] {
      FirstTakes(w, r, q, ts[0], k);
      BackBehind(w, r, q, ts[1..], k.(left := []));
    }
  }

  lemma {:induction false} NothingToPair(w: World, r: Rest, q: Plan, ts: seq<Tuple>, k: Flow)
    requires r.Foreach? && IsVariable(r) && r.next == Pairs(q) && k.input == []
    ensures PushAll(w, r, ts, k).emit == []
    decreases |ts|
  {
    hide Push;
    if ts != [] {
      FirstTakes(w, r, q, ts[0], k);
      assert |Push(w, r, ts[0], k).emit| == 0;
      NothingToPair(w, r, q, ts[1..], k.(left := []));
    }
  }

  lemma OwnBehind(w: World, plan: Plan, q: Plan, k: Flow)
    requires BehindVar(plan, q) && k.count == 0 && k.left == [] && k.input == Eval(w, q).ts
    ensures PushAll(w, plan.rest, ScanTuples(w, plan.scan), k).emit == Eval(w, plan).ts
    ensures PushAll(w, plan.rest, ScanTuples(w, plan.scan), k).exit == Raised <==> Eval(w, plan).threw
  {
    hide PushAll, ScanTuples, Denote;
    assert Feeds(w, Collect, k.input) && Feeds(w, Pairs(q), k.input);
    assert OneLimit(Collect) && OneVar(Collect) && OneJoin(Collect) && !HasJoin(Collect) && !HasVar(Collect);
    assert OneLimit(Pairs(q)) && OneVar(Pairs(q)) && OneJoin(Pairs(q)) && !HasVar(Pairs(q));
    PushRefinesDenote(w, plan.rest, Stream(ScanTuples(w, plan.scan), false), k);
  }

  /** A second run of a query that pairs its scan with an input: the input's rows stand behind those of the first
      run, so every pair is made twice, which is what the plan means if and only if there are none. */
  lemma SecondRunIff(w: World, scan: Scan, q: Plan)
    requires Typed(q.rest, [0], false) && AllOneLimit(q) && !HasJoin(q.rest)
    ensures var plan, rows := Plan(scan, Pairs(q)), Eval(w, q).ts;
            var o, ts := Running(w, plan, [], [rows]), ScanTuples(w, scan);
            && o.emit == FlatMap(w.g, Pairs(q), ts, rows + rows) && o.exit == Back
            && (o.emit == Eval(w, plan).ts <==> ts == [] || rows == [])
            && (o.emit == Eval(w, plan).ts || |o.emit| > |Eval(w, plan).ts|)
  {
    hide Typed, Denote, PushAll, ScanTuples, FlatMap;
    var plan, rows, ts := Plan(scan, Pairs(q)), Eval(w, q).ts, ScanTuples(w, scan);
    RunsMean(w, q, false, []);
    assert [rows][1..] == [];
    var k := Entry(w, plan, [], [rows]);
    assert k.input == rows + rows;
    PairsRun(w, q, ts, k);
    EvalPairs(w, scan, q);
    PairCount(w.g, Pairs(q), ts, rows);
    if ts != [] && rows != [] {
      assert |ts| * (|rows| + |rows|) == |ts| * |rows| + |ts| * |rows| > |ts| * |rows|;
    } else if rows == [] {
      assert rows + rows == rows;
    } else {
      assert |ts| * |rows + rows| == 0;
    }
  }

  lemma EvalPairs(w: World, scan: Scan, q: Plan)
    ensures Eval(w, Plan(scan, Pairs(q))).ts == FlatMap(w.g, Pairs(q), ScanTuples(w, scan), Eval(w, q).ts)
    ensures !Eval(w, Plan(scan, Pairs(q))).threw
  {
    var s := Stream(ScanTuples(w, scan), false);
    assert SecondInput(w, Pairs(q)) == Eval(w, q).ts;
    assert Apply(w, Pairs(q), s) == Stream(FlatMap(w.g, Pairs(q), s.ts, Eval(w, q).ts), false);
    assert Denote(w, Collect, Apply(w, Pairs(q), s)) == Apply(w, Pairs(q), s);
    assert Denote(w, Pairs(q), s) == Apply(w, Pairs(q), s);
  }

  // What the first run leaves to the second.
  lemma PairsAgain(w: World, scan: Scan, q: Plan, had: seq<seq<Tuple>>)
    requires Typed(Pairs(q), [0], true) && AllOneLimit(Plan(scan, Pairs(q))) && Settled(w, Plan(scan, Pairs(q)))
    requires !HasJoin(q.rest) && 2 * |Eval(w, q).ts| < MAX_ROWS && |had| == |Inputs(Pairs(q))| && AllEmpty(had)
    ensures InputsAfter(w, Plan(scan, Pairs(q)), [], had) == [Eval(w, q).ts] && |Inputs(Pairs(q))| == 1
    ensures Typed(q.rest, [0], false) && AllOneLimit(q)
    ensures Sound(w, Plan(scan, Pairs(q)), [], [Eval(w, q).ts])
  {
    hide Eval, PushAll, ScanTuples, AllKinds;
    var plan, rows := Plan(scan, Pairs(q)), Eval(w, q).ts;
    assert JoinRhs(plan.rest) == q && Inputs(plan.rest) == [q];
    LimitsBelow(plan);
    InputsMean(w, plan, true, had);
    PlanKinds(w, q);
    RunsMean(w, q, false, []);
    assert [rows][1..] == [];
    assert Entry(w, plan, [], [rows]).input == rows + rows;
    assert Sound(w, q, [], []);
  }
}
