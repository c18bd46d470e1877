/** The tuples of a join's input have the kinds that get_rhs_type lists, position by position, so
    the typed reads of the join never meet a value of another kind. */
module Kinds {
  import opened Storage
  import opened Runtime
  import opened Machine
  import opened Plan
  import opened Algebra
  import opened TupleAtATime
  import opened Simulation

  ghost predicate AllKinds(types: seq<nat>, ts: seq<Tuple>) {
    forall i :: 0 <= i < |ts| ==> HasKinds(types, ts[i])
  }

  lemma KindsAppend(a: seq<nat>, b: seq<nat>, t: Tuple, u: Tuple)
    requires HasKinds(a, t) && HasKinds(b, u)
    ensures HasKinds(a + b, t + u)
  {
  }

  lemma AllAppend(types: seq<nat>, a: seq<Tuple>, b: seq<Tuple>)
    requires AllKinds(types, a) && AllKinds(types, b)
    ensures AllKinds(types, a + b)
  {
  }

  lemma {:induction false} EdgeKinds(g: Graph, code: nat, types: seq<nat>, t: Tuple, ids: seq<nat>)
    requires HasKinds(types, t)
    ensures AllKinds(types + [1], EdgeTuples(g, code, t, ids)) && AllKinds(types + [1], IdTuples(t, ids))
    decreases |ids|
  {
    if ids != [] {
      EdgeKinds(g, code, types, t, ids[1..]);
      KindsAppend(types, [1], t, [RshipV(ids[0])]);
    }
  }

  lemma {:induction false} CrossKinds(types: seq<nat>, more: seq<nat>, t: Tuple, rows: seq<Tuple>)
    requires HasKinds(types, t) && AllKinds(more, rows)
    ensures AllKinds(types + more, CrossTuples(t, rows))
    decreases |rows|
  {
    if rows != [] {
      KindsAppend(types, more, t, rows[0]);
      CrossKinds(types, more, t, rows[1..]);
    }
  }

  // The types an operator of a join input adds.
  function More(r: Rest): seq<nat>
    requires !r.Collect? && !r.End?
  {
    match r
    case Foreach(_, _, _, _, _) => [1]
    case Expand(_, _, _) => [0]
    case Join(_, _, rhs) => RhsTypes(rhs)
    case _ => []
  }

  lemma NextKinds(g: Graph, r: Rest, types: seq<nat>, t: Tuple, rows: seq<Tuple>)
    requires IsFlat(r) && Typed(r, types, false) && HasKinds(types, t)
    requires r.Join? ==> AllKinds(RhsTypes(r.rhs), rows)
    ensures AllKinds(types + More(r), NextTuples(g, r, t, rows))
  {
    hide RhsTypes, EdgeTuples, IdTuples, CrossTuples, LeftOuterTuples, Chain;
    assert types + [] == types;
    match r
    case Foreach(d, min, max, l, _) =>
      if t != [] && t[|t| - 1].NodeV? {
        EdgeKinds(g, g.code(l), types, t, Chain(g, d, First(g.node(t[|t| - 1].p), d)));
        EdgeKinds(g, g.code(l), types, t, Gathered(g, r, t));
      }
    case Expand(out, l, _) => ExpandKinds(g, r, types, t);
    case Filter(_, _, _, _) =>
    case Join(_, _, rhs) => CrossKinds(types, RhsTypes(rhs), t, rows);
  }

  lemma ExpandKinds(g: Graph, r: Rest, types: seq<nat>, t: Tuple)
    requires r.Expand? && HasKinds(types, t)
    ensures AllKinds(types + [0], ExpandTuples(g, r, t))
  {
    if ExpandTuples(g, r, t) != [] {
      var u := ExpandTuples(g, r, t)[0];
      KindsAppend(types, [0], t, [u[|t|]]);
    }
  }

  lemma {:induction false} FlatKinds(g: Graph, r: Rest, types: seq<nat>, ts: seq<Tuple>, rows: seq<Tuple>)
    requires IsFlat(r) && Typed(r, types, false) && AllKinds(types, ts)
    requires r.Join? ==> AllKinds(RhsTypes(r.rhs), rows)
    ensures AllKinds(types + More(r), FlatMap(g, r, ts, rows))
    decreases |ts|
  {
    hide Typed, RhsTypes, NextTuples;
    if ts != [] {
      NextKinds(g, r, types, ts[0], rows);
      FlatKinds(g, r, types, ts[1..], rows);
      AllAppend(types + More(r), NextTuples(g, r, ts[0], rows), FlatMap(g, r, ts[1..], rows));
    }
  }

  lemma {:induction false} RestKinds(w: World, r: Rest, types: seq<nat>, s: Stream)
    requires Typed(r, types, false) && AllKinds(types, s.ts) && !s.threw
    ensures AllKinds(types + RestTypes(r), Denote(w, r, s).ts) && !Denote(w, r, s).threw
    decreases r
  {
    hide Eval, FlatMap, HasKinds, RhsTypes;
    if !r.End? {
      if r.Join? {
        PlanKinds(w, r.rhs);
      }
      if IsFlat(r) {
        FlatKinds(w.g, r, types, s.ts, SecondInput(w, r));
      }
      assert types + [] == types;
      RestKinds(w, Tail(r), types + More(r), Apply(w, r, s));
      assert types + More(r) + RestTypes(Tail(r)) == types + (More(r) + RestTypes(Tail(r)));
      assert [] + RestTypes(Tail(r)) == RestTypes(Tail(r));
    } else {
      assert types + [] == types;
    }
  }

  lemma {:induction false} LabelKinds(g: Graph, code: nat, ps: seq<nat>)
    ensures AllKinds([0], LabelTuples(g, code, ps))
    decreases |ps|
  {
    if ps != [] {
      LabelKinds(g, code, ps[1..]);
    }
  }

  /** Position by position, a join input holds what its type vector says; and it never raises. */
  lemma {:induction false} PlanKinds(w: World, p: Plan)
    requires RhsOk(p)
    ensures AllKinds(RhsTypes(p), Eval(w, p).ts) && !Eval(w, p).threw
    decreases p
  {
    if p.scan.ScanLabel? {
      LabelKinds(w.g, w.g.code(p.scan.lbl), w.g.nodes);
    }
    RestKinds(w, p.rest, [0], Stream(ScanTuples(w, p.scan), false));
  }

  // ----- tuple by tuple -----

  // The input of the pipeline's join holds what its type vector says.
  ghost predicate InputKinds(r: Rest, rows: seq<Tuple>) {
    HasJoin(r) ==> AllKinds(RhsTypes(JoinRhs(r)), rows)
  }

  /** The same, however the pipeline is driven: whatever its Limits and the list of variable-hop traversals. */
  lemma {:induction false} PushKinds(w: World, r: Rest, types: seq<nat>, t: Tuple, k: Flow)
    requires Typed(r, types, false) && HasKinds(types, t) && InputKinds(r, k.input)
    ensures AllKinds(types + RestTypes(r), Push(w, r, t, k).emit) && Push(w, r, t, k).exit != Raised
    decreases r, 0, 0
  {
    hide HasKinds, RhsTypes, NextTuples, Gathered;
    assert types + [] == types;
    if r.Limit? {
      PushKinds(w, r.next, types, t, k.(count := (k.count + 1) % TWO_64));
    } else if r.Sort? {
      PushKinds(w, r.next, types, t, k);
    } else if r.Foreach? && IsVariable(r) {
      var list := k.left + Gathered(w.g, r, t);
      assert types + [1] + RestTypes(r.next) == types + RestTypes(r);
      EdgeKinds(w.g, 0, types, t, list);
      PushAllKinds(w, r.next, types + [1], IdTuples(t, list), k.(left := list));
    } else if IsFlat(r) {
      NextKinds(w.g, r, types, t, k.input);
      assert types + More(r) + RestTypes(Tail(r)) == types + RestTypes(r);
      PushAllKinds(w, Tail(r), types + More(r), NextTuples(w.g, r, t, k.input), k);
    }
  }

  lemma {:induction false} PushAllKinds(w: World, r: Rest, types: seq<nat>, ts: seq<Tuple>, k: Flow)
    requires Typed(r, types, false) && AllKinds(types, ts) && InputKinds(r, k.input)
    ensures AllKinds(types + RestTypes(r), PushAll(w, r, ts, k).emit) && PushAll(w, r, ts, k).exit != Raised
    decreases r, 1, |ts|
  {
    hide HasKinds, Push, RestTypes, Typed, InputKinds;
    if ts != [] {
      PushKinds(w, r, types, ts[0], k);
      InputStays(w, r, ts[0], k);
      PushAllKinds(w, r, types, ts[1..], Push(w, r, ts[0], k).k);
    }
  }
}
