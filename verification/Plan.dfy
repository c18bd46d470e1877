/** Query plans. A plan is an access path followed by the operators that consume its tuples;
    the second input of a join is a plan of its own, which ends in End. */
module Plan {
  import opened Storage
  import opened Ir
  import opened Machine

  datatype PrExpr = PrExpr(id: nat, key: string, ftype: FType)

  // The access path: all nodes with a label, or one node found through an index.
  datatype Scan = ScanLabel(lbl: string) | ScanIndex(lbl: string, prop: string, value: nat)

  datatype JoinKind = Cross | LeftOuter(lhsPos: nat, rhsPos: nat)

  datatype Plan = Plan(scan: Scan, rest: Rest)
  datatype Rest =
    | Foreach(dir: Dir, min: int, max: int, lbl: string, next: Rest)
    | Expand(out: bool, lbl: string, next: Rest)
    | Filter(qr: nat, key: string, arg: nat, next: Rest)
    | Project(exprs: seq<PrExpr>, next: Rest)
    | Limit(n: int, next: Rest)
    | Sort(next: Rest)
    | Join(kind: JoinKind, lhs: Rest, rhs: Plan)
    | Collect
    | End

  predicate IsVariable(r: Rest)
    requires r.Foreach?
  {
    !(r.min == 0 && r.max == 0)
  }

  // The next operator of the same pipeline.
  function Tail(r: Rest): Rest
    requires !r.Collect? && !r.End?
  {
    if r.Join? then r.lhs else r.next
  }

  // Where the tuples that an operator makes go: of two joins in a row they pass both.
  function Onward(r: Rest): Rest
    requires !r.Collect? && !r.End?
  {
    if r.Join? && r.lhs.Join? then r.lhs.lhs else Tail(r)
  }

  predicate HasVar(r: Rest) {
    !r.Collect? && !r.End? && ((r.Foreach? && IsVariable(r)) || HasVar(Tail(r)))
  }

  predicate HasLimit(r: Rest) {
    !r.Collect? && !r.End? && (r.Limit? || HasLimit(Tail(r)))
  }

  predicate HasProject(r: Rest) {
    !r.Collect? && !r.End? && (r.Project? || HasProject(Tail(r)))
  }

  predicate HasJoin(r: Rest) {
    !r.Collect? && !r.End? && (r.Join? || HasJoin(Tail(r)))
  }

  predicate EndsInCollect(r: Rest) {
    r.Collect? || (!r.End? && EndsInCollect(Tail(r)))
  }

  // A Limit below a variable-hop traversal can leave its loop half-way.
  predicate LimitUnderVar(r: Rest) {
    !r.Collect? && !r.End? &&
    ((r.Foreach? && IsVariable(r) && HasLimit(r.next)) || LimitUnderVar(Tail(r)))
  }

  lemma {:induction false} UnderNeedsLimit(r: Rest)
    requires LimitUnderVar(r)
    ensures HasLimit(r) && HasVar(r)
    decreases r
  {
    if !(r.Foreach? && IsVariable(r) && HasLimit(r.next)) {
      UnderNeedsLimit(Tail(r));
    }
  }

  // The operators of a pipeline that have an input, one behind the other.
  function Walked(r: Rest): (ops: seq<Rest>)
    ensures ops == [] <==> r.Collect? || r.End?
    ensures forall i :: 0 <= i < |ops| ==> !ops[i].Collect? && !ops[i].End?
    ensures ops != [] ==> ops[0] == r && var last := Tail(ops[|ops| - 1]); last.Collect? || last.End?
    ensures forall i :: 0 <= i < |ops| - 1 ==> ops[i + 1] == Tail(ops[i])
  {
    if r.Collect? || r.End? then [] else [r] + Walked(Tail(r))
  }

  // ----- the type vector of a materialized input -----

  // The types a pipeline's operators add to the tuple, as get_rhs_type lists them.
  function RestTypes(r: Rest): seq<nat> {
    match r
    case Foreach(_, _, _, _, next) => [1] + RestTypes(next)
    case Expand(_, _, next) => [0] + RestTypes(next)
    case Join(_, lhs, rhs) => RhsTypes(rhs) + RestTypes(lhs)
    case Collect => []
    case End => []
    case _ => RestTypes(r.next)
  }

  function RhsTypes(p: Plan): seq<nat> {
    [0] + RestTypes(p.rest)
  }

  // The walk of get_rhs_type: a loop down the pipeline, and a call for each join's own input.
  method GetRhsType(p: Plan, typv: seq<nat>) returns (r: seq<nat>)
    ensures r == typv + RhsTypes(p)
    decreases p
  {
    r := typv + [0];
    var op := p.rest;
    while !op.Collect? && !op.End?
      invariant op == p.rest || op < p.rest
      invariant r + RestTypes(op) == typv + RhsTypes(p)
      decreases op
    {
      ghost var was := r;
      ghost var types := RestTypes(op);
      match op {
        case Foreach(_, _, _, _, next) => r := r + [1];
        case Expand(_, _, next) => r := r + [0];
        case Join(_, lhs, rhs) => r := GetRhsType(rhs, r);
        case _ =>
      }
      assert r + RestTypes(Tail(op)) == was + types;
      op := Tail(op);
    }
  }

  // ----- well-typed plans -----

  predicate ExprOk(e: PrExpr, types: seq<nat>) {
    && e.id < |types|
    && (e.ftype == FBoolean
        || (types[e.id] == 0 && e.ftype != FDouble)
        || (types[e.id] == 1 && e.ftype != FDouble && e.ftype != FUint64))
  }

  function ExprType(e: PrExpr, types: seq<nat>): nat {
    if e.ftype != FBoolean then TypeId(e.ftype) else if e.id < |types| then types[e.id] else 0
  }

  function ExprTypes(es: seq<PrExpr>, types: seq<nat>): seq<nat> {
    seq(|es|, i requires 0 <= i < |es| => ExprType(es[i], types))
  }

  // Result cells are numbered from 1 and there are 12 entries; a forwarded value takes none.
  const PV_CELLS: nat := 12

  predicate CellsFit(es: seq<PrExpr>) {
    forall i :: PV_CELLS <= i + 1 && 0 <= i < |es| ==> es[i].ftype == FBoolean
  }

  /** What the compiler demands of the operators that follow a tuple with these register types:
      ForeachRship needs a node and Expand a relationship in the last register, Filter and the
      join read node registers, at most one variable-hop traversal, one Project and one Join per
      pipeline, and a join input holds nodes and relationships only. */
  predicate Typed(r: Rest, types: seq<nat>, main: bool) {
    match r
    case Foreach(_, _, _, _, next) =>
      |types| > 0 && types[|types| - 1] == 0 && (IsVariable(r) ==> !HasVar(next)) && Typed(next, types + [1], main)
    case Expand(_, _, next) => |types| > 0 && types[|types| - 1] == 1 && Typed(next, types + [0], main)
    case Filter(qr, _, _, next) => qr < |types| && types[qr] == 0 && Typed(next, types, main)
    case Project(es, next) =>
      main && CellsFit(es) && (forall e :: e in es ==> ExprOk(e, types))
      && !HasProject(next) && Typed(next, ExprTypes(es, types), main)
    case Limit(_, next) => Typed(next, types, main)
    case Sort(next) => Typed(next, types, main)
    case Join(kind, lhs, rhs) =>
      && !HasJoin(lhs) && RhsOk(rhs)
      && (match kind
          case Cross => Typed(lhs, types + RhsTypes(rhs), main)
          case LeftOuter(i, j) =>
            main && i < |types| && types[i] == 0 && j < |RhsTypes(rhs)| && RhsTypes(rhs)[j] == 0
            && Typed(lhs, types + RhsTypes(rhs) + [7], main))
    case Collect => main && forall i :: 0 <= i < |types| ==> types[i] in {0, 1, 2, 4, 5, 6, 7, 8}
    case End => !main && forall i :: 0 <= i < |types| ==> types[i] in {0, 1}
  }

  predicate RhsOk(p: Plan) {
    Typed(p.rest, [0], false)
  }

  // At most one Limit in the pipeline: the counter then belongs to it.
  predicate OneLimit(r: Rest) {
    r.Collect? || r.End? || ((r.Limit? ==> !HasLimit(r.next)) && OneLimit(Tail(r)))
  }

  // At most one variable-hop traversal in the pipeline: the list then belongs to it.
  predicate OneVar(r: Rest) {
    r.Collect? || r.End? || ((r.Foreach? && IsVariable(r) ==> !HasVar(r.next)) && OneVar(Tail(r)))
  }

  // At most one join per pipeline.
  predicate OneJoin(r: Rest) {
    r.Collect? || r.End? || ((r.Join? ==> !HasJoin(r.lhs)) && OneJoin(Tail(r)))
  }

  // The input of the pipeline's join.
  function JoinRhs(r: Rest): Plan
    requires HasJoin(r)
  {
    if r.Join? then r.rhs else JoinRhs(Tail(r))
  }

  // The first join of the pipeline.
  function FirstJoin(r: Rest): (j: Rest)
    requires HasJoin(r)
    ensures j.Join?
  {
    if r.Join? then r else FirstJoin(Tail(r))
  }

  lemma {:induction false} FirstIsOnly(r: Rest)
    requires HasJoin(r) && OneJoin(r)
    ensures FirstJoin(r).rhs == JoinRhs(r) && !HasJoin(FirstJoin(r).lhs)
    decreases r
  {
    if !r.Join? {
      FirstIsOnly(Tail(r));
    }
  }

  lemma {:induction false} RhsSmaller(r: Rest)
    requires HasJoin(r)
    ensures JoinRhs(r) < r
    decreases r
  {
    if !r.Join? {
      RhsSmaller(Tail(r));
    }
  }

  // The second inputs of the joins of a plan, outermost first.
  function Inputs(r: Rest): seq<Plan> {
    if HasJoin(r) then
      RhsSmaller(r);
      [JoinRhs(r)] + Inputs(JoinRhs(r).rest)
    else []
  }

  // At most one Limit in every pipeline.
  predicate AllOneLimit(p: Plan) {
    && OneLimit(p.rest)
    && forall i :: 0 <= i < |Inputs(p.rest)| ==> OneLimit(Inputs(p.rest)[i].rest)
  }

  lemma {:induction false} TypedSingle(r: Rest, types: seq<nat>, main: bool)
    requires Typed(r, types, main)
    ensures OneJoin(r) && OneVar(r) && (EndsInCollect(r) <==> main) && (!main ==> !HasProject(r))
    ensures HasJoin(r) ==> RhsOk(JoinRhs(r))
    decreases r
  {
    hide RhsOk, RhsTypes;
    match r
    case Foreach(_, _, _, _, next) => TypedSingle(next, types + [1], main);
    case Expand(_, _, next) => TypedSingle(next, types + [0], main);
    case Filter(_, _, _, next) => TypedSingle(next, types, main);
    case Project(es, next) => TypedSingle(next, ExprTypes(es, types), main);
    case Limit(_, next) => TypedSingle(next, types, main);
    case Sort(next) => TypedSingle(next, types, main);
    case Join(kind, lhs, rhs) =>
      TypedSingle(lhs, if kind == Cross then types + RhsTypes(rhs) else types + RhsTypes(rhs) + [7], main);
    case Collect =>
    case End =>
  }

  // ----- argument slots -----

  function ScanWidth(s: Scan): nat {
    if s.ScanIndex? then 3 else 1
  }

  // The slots an operator advances the numbering by.
  function Width(r: Rest): nat {
    match r
    case Project(_, _) => 0
    case Join(_, _, _) => 0
    case Collect => 0
    case End => 0
    case _ => 1
  }

  function TotalRest(r: Rest): nat {
    match r
    case Collect => 0
    case End => 0
    case Join(_, lhs, rhs) => TotalRest(lhs) + TotalPlan(rhs)
    case _ => Width(r) + TotalRest(r.next)
  }

  function TotalPlan(p: Plan): nat {
    ScanWidth(p.scan) + TotalRest(p.rest)
  }

  // The arguments of a plan in the order the numbering pass meets its operators.
  function ScanArgs(s: Scan): seq<Arg> {
    match s
    case ScanLabel(l) => [LabelArg(l)]
    case ScanIndex(l, k, v) => [LabelArg(l), LabelArg(k), ValueArg(v)]
  }

  function OwnArgs(r: Rest): seq<Arg> {
    match r
    case Foreach(_, _, _, l, _) => [LabelArg(l)]
    case Expand(_, l, _) => [if l == "" then NoArg else LabelArg(l)]
    case Filter(_, _, v, _) => [ValueArg(v)]
    case Limit(_, _) => [NoArg]
    case Sort(_) => [NoArg]
    case _ => []
  }

  function RestArgs(r: Rest): seq<Arg> {
    match r
    case Collect => []
    case End => []
    case Join(_, lhs, rhs) => RestArgs(lhs) + PlanArgs(rhs)
    case _ => OwnArgs(r) + RestArgs(r.next)
  }

  function PlanArgs(p: Plan): seq<Arg> {
    ScanArgs(p.scan) + RestArgs(p.rest)
  }

  // The argument array holds, from slot `at` on, what the plan's operators expect there;
  // slots nobody reads may hold anything.
  predicate ArgsFrom(args: seq<Arg>, at: nat, want: seq<Arg>) {
    at + |want| <= |args| && forall i :: 0 <= i < |want| && want[i] != NoArg ==> args[at + i] == want[i]
  }

  lemma ArgsSplit(args: seq<Arg>, at: nat, a: seq<Arg>, b: seq<Arg>)
    requires ArgsFrom(args, at, a + b)
    ensures ArgsFrom(args, at, a) && ArgsFrom(args, at + |a|, b)
  {
    assert forall i :: 0 <= i < |a| ==> (a + b)[i] == a[i];
    forall i | 0 <= i < |b| && b[i] != NoArg
      ensures args[at + |a| + i] == b[i]
    {
      assert (a + b)[|a| + i] == b[i];
    }
  }

  lemma {:induction false} RestArgsTotal(r: Rest)
    ensures |RestArgs(r)| == TotalRest(r)
    decreases r
  {
    match r
    case Collect =>
    case End =>
    case Join(_, lhs, rhs) => RestArgsTotal(lhs); RestArgsTotal(rhs.rest);
    case _ => RestArgsTotal(r.next);
  }

  // ----- the projection keys -----

  // The keys that query_length collects from a pipeline.
  function PipelineKeys(r: Rest): seq<string> {
    match r
    case Collect => []
    case End => []
    case Project(es, next) => Keys(es) + PipelineKeys(next)
    case _ => PipelineKeys(Tail(r))
  }

  function Keys(es: seq<PrExpr>): seq<string> {
    seq(|es|, i requires 0 <= i < |es| => es[i].key)
  }
}
