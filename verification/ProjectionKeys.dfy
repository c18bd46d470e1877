/** The keys of projections. Every access path adds those of its pipeline to one list, which is never cleared. */
module ProjectionKeys {
  import opened Plan
  import opened Codegen

  // The number of keys of the first i operators.
  function KeysBefore(ops: seq<Rest>, i: nat): nat
    requires i <= |ops|
  {
    if i == 0 then 0 else KeysBefore(ops, i - 1) + (if ops[i - 1].Project? then |ops[i - 1].exprs| else 0)
  }

  // The keys of all projections among the operators, in their order, and in each in that of its expressions.
  predicate KeysOf(ops: seq<Rest>, keys: seq<string>) {
    && |keys| == KeysBefore(ops, |ops|)
    && forall i: nat, j: nat :: i < |ops| && ops[i].Project? && j < |ops[i].exprs| ==> KeyInPlace(ops, keys, i, j)
  }

  // The j-th key of the i-th operator is where it should be.
  predicate KeyInPlace(ops: seq<Rest>, keys: seq<string>, i: nat, j: nat)
    requires i < |ops| && ops[i].Project? && j < |ops[i].exprs|
  {
    KeysBefore(ops, i) + j < |keys| && keys[KeysBefore(ops, i) + j] == ops[i].exprs[j].key
  }

  lemma {:induction false} BeforeLeft(a: seq<Rest>, b: seq<Rest>, i: nat)
    requires i <= |a|
    ensures KeysBefore(a + b, i) == KeysBefore(a, i)
    decreases i
  {
    if i > 0 {
      BeforeLeft(a, b, i - 1);
    }
  }

  lemma {:induction false} BeforeRight(a: seq<Rest>, b: seq<Rest>, i: nat)
    requires i <= |b|
    ensures KeysBefore(a + b, |a| + i) == KeysBefore(a, |a|) + KeysBefore(b, i)
    decreases i
  {
    if i == 0 {
      BeforeLeft(a, b, |a|);
    } else {
      BeforeRight(a, b, i - 1);
      assert (a + b)[|a| + i - 1] == b[i - 1];
    }
  }

  lemma KeysAppend(a: seq<Rest>, b: seq<Rest>, ks: seq<string>, ls: seq<string>)
    requires KeysOf(a, ks) && KeysOf(b, ls)
    ensures KeysOf(a + b, ks + ls)
  {
    hide KeysBefore;
    var ops, keys := a + b, ks + ls;
    BeforeRight(a, b, |b|);
    forall i: nat, j: nat | i < |ops| && ops[i].Project? && j < |ops[i].exprs|
      ensures KeyInPlace(ops, keys, i, j)
    {
      if i < |a| {
        LeftKey(a, b, ks, ls, i, j);
      } else {
        RightKey(a, b, ks, ls, i - |a|, j);
      }
    }
  }

  lemma LeftKey(a: seq<Rest>, b: seq<Rest>, ks: seq<string>, ls: seq<string>, i: nat, j: nat)
    requires KeysOf(a, ks) && i < |a| && a[i].Project? && j < |a[i].exprs|
    ensures KeyInPlace(a + b, ks + ls, i, j)
  {
    hide KeysBefore;
    BeforeLeft(a, b, i);
    assert KeyInPlace(a, ks, i, j);
  }

  lemma RightKey(a: seq<Rest>, b: seq<Rest>, ks: seq<string>, ls: seq<string>, i: nat, j: nat)
    requires KeysOf(a, ks) && KeysOf(b, ls) && i < |b| && b[i].Project? && j < |b[i].exprs|
    ensures KeyInPlace(a + b, ks + ls, |a| + i, j)
  {
    hide KeysBefore;
    BeforeRight(a, b, i);
    assert KeyInPlace(b, ls, i, j);
    assert (ks + ls)[|ks| + (KeysBefore(b, i) + j)] == ls[KeysBefore(b, i) + j];
  }

  lemma KeysOfOne(r: Rest)
    ensures KeysOf([r], if r.Project? then Keys(r.exprs) else [])
  {
    assert KeysBefore([r], 0) == 0;
  }

  /** Within a pipeline the keys of an earlier projection come before those of a later one. */
  lemma {:induction false} PipelineOrder(r: Rest)
    ensures KeysOf(Walked(r), PipelineKeys(r))
    decreases r
  {
    if !r.Collect? && !r.End? {
      PipelineOrder(Tail(r));
      KeysOfOne(r);
      KeysAppend([r], Walked(Tail(r)), if r.Project? then Keys(r.exprs) else [], PipelineKeys(Tail(r)));
      assert [] + PipelineKeys(Tail(r)) == PipelineKeys(Tail(r));
    }
  }

  // The operators of a query, access path by access path in the order in which they are compiled.
  function Operators(p: Plan): seq<Rest> {
    Walked(p.rest) + OperatorsBelow(p.rest)
  }

  function OperatorsBelow(r: Rest): seq<Rest> {
    match r
    case Join(_, lhs, rhs) => OperatorsBelow(lhs) + Operators(rhs)
    case Collect => []
    case End => []
    case _ => OperatorsBelow(r.next)
  }

  lemma VisitKeepsKeys(r: Rest, cs: Cg)
    ensures After(r, cs).projectString == cs.projectString && After(r, cs).projectKeys == cs.projectKeys
  {
    hide Grow, RhsTypes, CollectCode, EndCode, FilterBlocks, JoinBlocks, ForeachBlocks, VariableBlocks, ExpandBlocks;
  }

  /** A further access path has the keys of all earlier ones in front of its own. */
  lemma EarlierKeysStay(cs: Cg, p: Plan)
    ensures var keys := VisitScan(cs, p).projectKeys;
            && VisitScan(cs, p).projectString == keys && cs.projectString <= keys
            && KeysOf(Walked(p.rest), keys[|cs.projectString|..])
  {
    hide ScanBlocks, IndexBlocks, ScanExit, PipelineKeys;
    PipelineOrder(p.rest);
    assert (cs.projectString + PipelineKeys(p.rest))[|cs.projectString|..] == PipelineKeys(p.rest);
  }

  lemma {:induction false} RestStrings(r: Rest, cs: Cg) returns (keys: seq<string>)
    requires cs.projectKeys == cs.projectString
    ensures CompileRest(r, cs).projectString == cs.projectString + keys && KeysOf(OperatorsBelow(r), keys)
    ensures CompileRest(r, cs).projectKeys == CompileRest(r, cs).projectString
    decreases r
  {
    hide After, KeysOf;
    VisitKeepsKeys(r, cs);
    match r
    case Collect => keys := []; NoKeysOf();
    case End => keys := []; NoKeysOf();
    case Join(_, lhs, rhs) =>
      var ks := RestStrings(lhs, After(r, cs));
      var ls := PlanStrings(rhs, CompileRest(lhs, After(r, cs)));
      keys := ks + ls;
      KeysAppend(OperatorsBelow(lhs), Operators(rhs), ks, ls);
    case _ => keys := RestStrings(r.next, After(r, cs));
  }

  lemma NoKeysOf()
    ensures KeysOf([], [])
  {
  }

  lemma {:induction false} PlanStrings(p: Plan, cs: Cg) returns (keys: seq<string>)
    ensures CompilePlan(p, cs).projectString == cs.projectString + keys && KeysOf(Operators(p), keys)
    ensures CompilePlan(p, cs).projectKeys == CompilePlan(p, cs).projectString
    decreases p
  {
    hide VisitScan, KeysOf, CompileRest;
    EarlierKeysStay(cs, p);
    var own := AfterScan(p, cs).projectString[|cs.projectString|..];
    assert AfterScan(p, cs).projectString == cs.projectString + own;
    var ks := RestStrings(p.rest, AfterScan(p, cs));
    keys := own + ks;
    KeysAppend(Walked(p.rest), OperatorsBelow(p.rest), own, ks);
  }

  /** After a whole query the keys are those of all projections of all its access paths, in the order in which they
      are compiled. */
  lemma QueryKeys(dict: string -> nat, p: Plan)
    ensures KeysOf(Operators(p), Compile(dict, p).projectKeys)
  {
    hide KeysOf, CompilePlan;
    var keys := PlanStrings(p, Codegen.Start(dict));
    assert [] + keys == keys;
  }
}
