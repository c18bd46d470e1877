/** The reference meaning of plans. Every operator maps a finite stream of tuples to a stream
    of tuples, one operator after the other; no block, register, cell or loop is involved. */
module Algebra {
  import opened Storage
  import opened Ir
  import opened Runtime
  import opened Machine
  import opened Plan

  // ----- what one operator makes of one tuple -----

  // The tuple extended by each relationship of the chain that carries the label.
  function EdgeTuples(g: Graph, code: nat, t: Tuple, ids: seq<nat>): seq<Tuple> {
    if ids == [] then []
    else (if g.rship(ids[0]).labelCode == code then [t + [RshipV(ids[0])]] else []) + EdgeTuples(g, code, t, ids[1..])
  }

  function IdTuples(t: Tuple, ids: seq<nat>): seq<Tuple> {
    if ids == [] then [] else [t + [RshipV(ids[0])]] + IdTuples(t, ids[1..])
  }

  // What a variable-hop traversal gathers for the node at the end of a tuple.
  function Gathered(g: Graph, r: Rest, t: Tuple): seq<nat>
    requires r.Foreach?
  {
    if t == [] || !t[|t| - 1].NodeV? then [] else g.varHop(t[|t| - 1].p, g.code(r.lbl), r.min, r.max)
  }

  ghost function ForeachTuples(g: Graph, r: Rest, t: Tuple): seq<Tuple>
    requires r.Foreach?
  {
    if t == [] || !t[|t| - 1].NodeV? then []
    else if IsVariable(r) then IdTuples(t, Gathered(g, r, t))
    else EdgeTuples(g, g.code(r.lbl), t, Chain(g, r.dir, First(g.node(t[|t| - 1].p), r.dir)))
  }

  function ExpandTuples(g: Graph, r: Rest, t: Tuple): seq<Tuple>
    requires r.Expand?
  {
    if t == [] || !t[|t| - 1].RshipV? then []
    else
      var rec := g.rship(t[|t| - 1].id);
      match g.nodeById(if r.out then rec.dst else rec.src)
      case None => []
      case Some(p) => if r.lbl == "" || g.node(p).labelCode == g.code(r.lbl) then [t + [NodeV(p)]] else []
  }

  // The tuple passes iff the first item with the key holds the argument.
  ghost predicate FilterHolds(g: Graph, r: Rest, t: Tuple)
    requires r.Filter?
  {
    && r.qr < |t| && t[r.qr].NodeV?
    && var item := FirstItem(Items(g, SetChain(g, g.node(t[r.qr].p).props)), g.code(r.key));
       item.Some? && item.value.value == r.arg
  }

  function CrossTuples(t: Tuple, rhs: seq<Tuple>): seq<Tuple> {
    if rhs == [] then [] else [t + rhs[0]] + CrossTuples(t, rhs[1..])
  }

  // The first of some rows with each of others: what the loops of two joins in a row get to, since they share
  // their index.
  function FirstWith(rows: seq<Tuple>, more: seq<Tuple>): seq<Tuple> {
    if rows == [] then [] else CrossTuples(rows[0], more)
  }

  // The number of relationships in the chain that end at the node with this id.
  function Hits(g: Graph, ids: seq<nat>, dst: nat): nat {
    if ids == [] then 0 else (if g.rship(ids[0]).dst == dst then 1 else 0) + Hits(g, ids[1..], dst)
  }

  function Repeat(t: Tuple, n: nat): seq<Tuple> {
    if n == 0 then [] else [t] + Repeat(t, n - 1)
  }

  // The id of the node at position j of a materialized tuple.
  function IdAt(g: Graph, t: Tuple, j: nat): nat {
    if j < |t| && t[j].NodeV? then g.node(t[j].p).id else 0
  }

  /** A row per relationship from the left node to the right node of the current rhs tuple, with
      flag 0; and as long as no rhs tuple has matched, a row with flag 1 for each. */
  function LeftOuterTuples(g: Graph, t: Tuple, ids: seq<nat>, j: nat, rhs: seq<Tuple>, dangling: bool): seq<Tuple> {
    if rhs == [] then []
    else
      var n := Hits(g, ids, IdAt(g, rhs[0], j));
      var still := dangling && n == 0;
      Repeat(t + rhs[0] + [IntV(0)], n)
      + (if still then [t + rhs[0] + [IntV(1)]] else [])
      + LeftOuterTuples(g, t, ids, j, rhs[1..], still)
  }

  ghost function JoinTuples(g: Graph, kind: JoinKind, t: Tuple, rhs: seq<Tuple>): seq<Tuple> {
    match kind
    case Cross => CrossTuples(t, rhs)
    case LeftOuter(i, j) =>
      if i < |t| && t[i].NodeV? then
        LeftOuterTuples(g, t, Chain(g, From, g.node(t[i].p).fromRships), j, rhs, true)
      else []
  }

  // ----- projections -----

  function ProjectOne(g: Graph, e: PrExpr, t: Tuple): Option<Val> {
    if e.id >= |t| then None
    else if e.ftype == FBoolean then Some(t[e.id])
    else if t[e.id].NodeV? then Fetch(g.nodeDesc(g.node(t[e.id].p).id), e)
    else if t[e.id].RshipV? then Fetch(g.rshipDesc(g.rship(t[e.id].id).id), e)
    else None
  }

  // The property under the key, if it has the projected type.
  function Fetch(d: Desc, e: PrExpr): Option<Val> {
    if e.key !in d.props then None
    else
      match d.props[e.key]
      case PInt(_) => if e.ftype == FInt then Some(PropV(d.props[e.key])) else None
      case PU64(_) => if e.ftype == FUint64 then Some(PropV(d.props[e.key])) else None
      case PStr(_) => if e.ftype == FString then Some(PropV(d.props[e.key])) else None
      case PTime(_) => if e.ftype == FDate || e.ftype == FTime then Some(PropV(d.props[e.key])) else None
  }

  predicate Projectable(g: Graph, es: seq<PrExpr>, t: Tuple) {
    forall i :: 0 <= i < |es| ==> ProjectOne(g, es[i], t).Some?
  }

  function ProjectTuple(g: Graph, es: seq<PrExpr>, t: Tuple): Tuple {
    seq(|es|, i requires 0 <= i < |es| =>
      match ProjectOne(g, es[i], t) case Some(v) => v case None => Undef)
  }

  // ----- operators on streams -----

  // A finite stream of tuples; `threw` says that it ends in an exception.
  datatype Stream = Stream(ts: seq<Tuple>, threw: bool)

  function ProjectStream(g: Graph, es: seq<PrExpr>, s: Stream): Stream
    decreases |s.ts|
  {
    if s.ts == [] then s
    else if !Projectable(g, es, s.ts[0]) then Stream([], true)
    else
      var rest := ProjectStream(g, es, s.(ts := s.ts[1..]));
      rest.(ts := [ProjectTuple(g, es, s.ts[0])] + rest.ts)
  }

  // The first n tuples; the next one is what stops the query.
  function Take(s: Stream, n: nat): Stream {
    if |s.ts| > n then Stream(s.ts[..n], false) else s
  }

  predicate IsFlat(r: Rest) {
    r.Foreach? || r.Expand? || r.Filter? || r.Join?
  }

  // The tuples an operator makes of one tuple; `rows` is the second input of a join.
  ghost function NextTuples(g: Graph, r: Rest, t: Tuple, rows: seq<Tuple>): seq<Tuple>
    requires IsFlat(r)
  {
    match r
    case Foreach(_, _, _, _, _) => ForeachTuples(g, r, t)
    case Expand(_, _, _) => ExpandTuples(g, r, t)
    case Filter(_, _, _, _) => if FilterHolds(g, r, t) then [t] else []
    case Join(kind, _, _) => JoinTuples(g, kind, t, rows)
  }

  ghost function FlatMap(g: Graph, r: Rest, ts: seq<Tuple>, rows: seq<Tuple>): seq<Tuple>
    requires IsFlat(r)
  {
    if ts == [] then [] else NextTuples(g, r, ts[0], rows) + FlatMap(g, r, ts[1..], rows)
  }

  // What the second input of an operator means.
  ghost function SecondInput(w: World, r: Rest): seq<Tuple>
    decreases r, 1, 0
  {
    if r.Join? then Eval(w, r.rhs).ts else []
  }

  // What an operator makes of a whole stream.
  ghost function Apply(w: World, r: Rest, s: Stream): Stream
    requires !r.Collect? && !r.End?
    decreases r, 2, 0
  {
    if r.Project? then ProjectStream(w.g, r.exprs, s)
    else if r.Limit? then Take(s, r.n % TWO_64)
    else if r.Sort? then s
    else Stream(FlatMap(w.g, r, s.ts, SecondInput(w, r)), s.threw)
  }

  ghost function Denote(w: World, r: Rest, s: Stream): Stream
    decreases r, 3, 0
  {
    if r.Collect? || r.End? then s else Denote(w, Tail(r), Apply(w, r, s))
  }

  function LabelTuples(g: Graph, code: nat, ps: seq<nat>): seq<Tuple> {
    if ps == [] then []
    else
      var own := if g.node(g.valid(ps[0])).labelCode == code then [[NodeV(g.valid(ps[0]))]] else [];
      own + LabelTuples(g, code, ps[1..])
  }

  function ScanTuples(w: World, s: Scan): seq<Tuple> {
    match s
    case ScanLabel(l) => LabelTuples(w.g, w.g.code(l), w.g.nodes)
    case ScanIndex(l, k, v) => match w.g.index(l, k, v) case Some(p) => [[NodeV(p)]] case None => []
  }

  /** The tuples that reach the end of a plan's pipeline. */
  ghost function Eval(w: World, p: Plan): Stream
    decreases p, 4, 0
  {
    Denote(w, p.rest, Stream(ScanTuples(w, p.scan), false))
  }

  // ----- collected rows -----

  function OutOf(g: Graph, v: Val): Out {
    match v
    case NodeV(p) => OStr(g.nodeText(g.node(p).id))
    case RshipV(id) => OStr(g.rshipText(g.rship(id).id))
    case IntV(n) => OInt(n)
    case PropV(PInt(i)) => OInt(i)
    case PropV(PU64(u)) => OU64(u)
    case PropV(PStr(s)) => OStr(s)
    case PropV(PTime(t)) => OTime(t)
    case _ => OInt(0)
  }

  function RowOf(g: Graph, t: Tuple): Row {
    seq(|t|, i requires 0 <= i < |t| => OutOf(g, t[i]))
  }

  function RowsOf(g: Graph, ts: seq<Tuple>): seq<Row> {
    seq(|ts|, i requires 0 <= i < |ts| => RowOf(g, ts[i]))
  }

  // ----- one tuple at a time -----

  /** What goes from tuple to tuple: how many the Limits have counted, what the list of variable-hop traversals
      holds, and the rows that the pipeline's join pairs a tuple with: those of its second input, or what
      two joins in a row make of both. */
  datatype Flow = Flow(count: nat, left: seq<nat>, input: seq<Tuple>)

  /** How a pipeline leaves a tuple: it comes back for the next one, the limit was reached, or a
      projection threw. */
  datatype Exit = Back | Limited | Raised
  datatype Outcome = Outcome(emit: seq<Tuple>, k: Flow, exit: Exit)

  // A variable-hop traversal that has come to its end has emptied the list.
  function Emptied(o: Outcome): Outcome {
    if o.exit == Back then o.(k := o.k.(left := [])) else o
  }

  /** The same operators driven tuple by tuple: each tuple is pushed through the whole rest of the
      pipeline before the next one is made, which is the order of the emitted loops. A variable-hop traversal
      takes what it finds in the list first. */
  ghost function Push(w: World, r: Rest, t: Tuple, k: Flow): Outcome
    decreases r, 0, 0
  {
    match r
    case Collect => Outcome([t], k, Back)
    case End => Outcome([t], k, Back)
    case Limit(n, next) =>
      if k.count == n % TWO_64 then Outcome([], k, Limited)
      else Push(w, next, t, k.(count := (k.count + 1) % TWO_64))
    case Sort(next) => Push(w, next, t, k)
    case Project(es, next) =>
      if Projectable(w.g, es, t) then Push(w, next, ProjectTuple(w.g, es, t), k) else Outcome([], k, Raised)
    case Foreach(_, _, _, _, next) =>
      if IsVariable(r) then
        var list := k.left + Gathered(w.g, r, t);
        Emptied(PushAll(w, next, IdTuples(t, list), k.(left := list)))
      else PushAll(w, next, NextTuples(w.g, r, t, k.input), k)
    case _ => PushAll(w, Onward(r), NextTuples(w.g, r, t, k.input), k)
  }

  ghost function PushAll(w: World, r: Rest, ts: seq<Tuple>, k: Flow): Outcome
    decreases r, 1, |ts|
  {
    if ts == [] then Outcome([], k, Back)
    else
      var a := Push(w, r, ts[0], k);
      if a.exit != Back then a
      else
        var b := PushAll(w, r, ts[1..], a.k);
        Outcome(a.emit + b.emit, b.k, b.exit)
  }
}
