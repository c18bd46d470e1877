/** What the emitted code calls: iterators, thread-local buffers and handle tables,
    the list of the variable-hop traversal, and the materialized join inputs. */
module Runtime {
  import opened Storage
  import opened Ir

  // Run-time values of registers and cells. IntV is a 64-bit word.
  datatype Val =
    | IntV(n: nat)
    | NodeV(p: nat)
    | NullV
    | RshipV(id: nat)
    | PsetV(ps: nat)
    | ItemV(item: PItem)
    | TupV(jid: nat, idx: nat)
    | ItV(it: nat)
    | PropV(v: PropVal)
    | Undef

  type Tuple = seq<Val>

  // A collected row.
  datatype Out = OInt(i: int) | OU64(u: nat) | OStr(s: string) | OTime(t: int)
  type Row = seq<Out>

  /** The state behind the extern functions. `tp` and `mat` are the row buffers, `ctr` is the
      counter that hands out result handles. */
  datatype Rt = Rt(
    iters: seq<nat>,
    fevList: seq<nat>, fevPos: nat,
    rows: seq<Row>, tp: Row,
    mat: Tuple, rhs: map<nat, seq<Tuple>>,
    ctr: nat, strs: map<nat, string>, u64s: map<nat, nat>, times: map<nat, int>,
    descs: map<nat, Desc>, rdescs: map<nat, Desc>)

  // Reading a join's input creates an empty one if there is none.
  function RhsAt(rt: Rt, jid: nat): seq<Tuple> {
    if jid in rt.rhs then rt.rhs[jid] else []
  }

  // The description caches agree with the database.
  ghost predicate CacheOk(g: Graph, rt: Rt) {
    && (forall id :: id in rt.descs ==> rt.descs[id] == g.nodeDesc(id))
    && (forall id :: id in rt.rdescs ==> rt.rdescs[id] == g.rshipDesc(id))
  }

  // ----- projections -----

  // The result of a projection call: what it writes to the cell, or an exception.
  datatype Pexpr = Wrote(rt: Rt, v: Val) | NoWrite(rt: Rt) | Threw(rt: Rt)

  function FetchNode(g: Graph, rt: Rt, id: nat): Rt {
    if id in rt.descs then rt else rt.(descs := rt.descs[id := g.nodeDesc(id)])
  }

  function FetchRship(g: Graph, rt: Rt, id: nat): Rt {
    if id in rt.rdescs then rt else rt.(rdescs := rt.rdescs[id := g.rshipDesc(id)])
  }

  // The shared part of the two switches: an integer is written in place, every other
  // value goes to a table and its handle is written. Relationships have no 64-bit case.
  function Deliver(rt: Rt, d: Desc, key: string, f: FType, isNode: bool): Pexpr {
    match f
    case FInt =>
      if key in d.props && d.props[key].PInt? then Wrote(rt, PropV(d.props[key])) else Threw(rt)
    case FUint64 =>
      if !isNode then NoWrite(rt)
      else if key in d.props && d.props[key].PU64? then
        Wrote(rt.(u64s := rt.u64s[rt.ctr := d.props[key].u], ctr := rt.ctr + 1), IntV(rt.ctr))
      else Threw(rt)
    case FString =>
      if key in d.props && d.props[key].PStr? then
        Wrote(rt.(strs := rt.strs[rt.ctr := d.props[key].s], ctr := rt.ctr + 1), IntV(rt.ctr))
      else Threw(rt)
    case FDate =>
      if key in d.props && d.props[key].PTime? then
        Wrote(rt.(times := rt.times[rt.ctr := d.props[key].t], ctr := rt.ctr + 1), IntV(rt.ctr))
      else Threw(rt)
    case FTime =>
      if key in d.props && d.props[key].PTime? then
        Wrote(rt.(times := rt.times[rt.ctr := d.props[key].t], ctr := rt.ctr + 1), IntV(rt.ctr))
      else Threw(rt)
    case FDouble => NoWrite(rt)
    case FBoolean => NoWrite(rt)
  }

  function ApplyNode(g: Graph, rt: Rt, key: string, f: FType, p: nat): Pexpr {
    var id := g.node(p).id;
    var rt1 := FetchNode(g, rt, id);
    Deliver(rt1, rt1.descs[id], key, f, true)
  }

  function ApplyRship(g: Graph, rt: Rt, key: string, f: FType, r: nat): Pexpr {
    var id := g.rship(r).id;
    var rt1 := FetchRship(g, rt, id);
    Deliver(rt1, rt1.rdescs[id], key, f, false)
  }

  // ----- collecting -----

  // The row element that a register value of the given type id turns into; None is a
  // conversion that is not registered, or memory of another kind.
  function Convert(g: Graph, rt: Rt, v: Val, ty: nat): Option<Out> {
    if ty == 0 && v.NodeV? then Some(OStr(g.nodeText(g.node(v.p).id)))
    else if ty == 1 && v.RshipV? then Some(OStr(g.rshipText(g.rship(v.id).id)))
    else if ty == 2 && v.PropV? && v.v.PInt? then Some(OInt(v.v.i))
    else if ty == 2 && v.IntV? then Some(OInt(v.n))
    else if ty == 4 && v.IntV? && v.n in rt.strs then Some(OStr(rt.strs[v.n]))
    else if (ty == 5 || ty == 6) && v.IntV? && v.n in rt.times then Some(OTime(rt.times[v.n]))
    else if ty == 8 && v.IntV? && v.n in rt.u64s then Some(OU64(rt.u64s[v.n]))
    else None
  }

  function CollectTp(rt: Rt): Rt {
    rt.(rows := rt.rows + [rt.tp], tp := [])
  }

  function CollectJoinTp(rt: Rt, jid: nat): Rt {
    rt.(rhs := rt.rhs[jid := RhsAt(rt, jid) + [rt.mat]], mat := [])
  }

  // ----- variable-hop traversal -----

  function FevGather(g: Graph, rt: Rt, p: nat, code: nat, min: int, max: int): Rt {
    rt.(fevList := rt.fevList + g.varHop(p, code, min, max), fevPos := 0)
  }

  // The position stays where the end of the list was.
  function FevDone(rt: Rt): (bool, Rt) {
    if rt.fevPos == |rt.fevList| then (true, rt.(fevList := [])) else (false, rt)
  }

  /** The extern functions and the thread-local variables they share, in place. */
  class ThreadLocals {
    const g: Graph
    var iters: seq<nat>
    var fevRshipList: seq<nat>
    var fevListIter: nat
    var resultData: seq<Row>
    var tp: Row
    var matTuple: Tuple
    var rhsInput: map<nat, seq<Tuple>>
    var strResCtr: nat
    var strResult: map<nat, string>
    var uintResult: map<nat, nat>
    var timeResult: map<nat, int>
    var descs: map<nat, Desc>
    var rdescs: map<nat, Desc>

    ghost function View(): Rt
      reads this
    {
      Rt(iters, fevRshipList, fevListIter, resultData, tp, matTuple, rhsInput,
         strResCtr, strResult, uintResult, timeResult, descs, rdescs)
    }

    // The switch both projection functions end in.
    method Store(d: Desc, key: string, f: FType, isNode: bool) returns (ret: Option<Val>, threw: bool)
      modifies this
      ensures threw <==> Deliver(old(View()), d, key, f, isNode).Threw?
      ensures View() == Deliver(old(View()), d, key, f, isNode).rt
      ensures ret == match Deliver(old(View()), d, key, f, isNode) case Wrote(_, v) => Some(v) case _ => None
    {
      ret, threw := None, false;
      match f {
        case FInt =>
          if key in d.props && d.props[key].PInt? { ret := Some(PropV(d.props[key])); } else { threw := true; }
        case FUint64 =>
          if isNode {
            if key in d.props && d.props[key].PU64? {
              uintResult := uintResult[strResCtr := d.props[key].u];
              ret := Some(IntV(strResCtr));
              strResCtr := strResCtr + 1;
            } else { threw := true; }
          }
        case FString =>
          if key in d.props && d.props[key].PStr? {
            strResult := strResult[strResCtr := d.props[key].s];
            ret := Some(IntV(strResCtr));
            strResCtr := strResCtr + 1;
          } else { threw := true; }
        case FTime | FDate =>
          if key in d.props && d.props[key].PTime? {
            timeResult := timeResult[strResCtr := d.props[key].t];
            ret := Some(IntV(strResCtr));
            strResCtr := strResCtr + 1;
          } else { threw := true; }
        case FDouble | FBoolean =>
      }
    }

    method ApplyPexprNode(key: string, f: FType, p: nat) returns (ret: Option<Val>, threw: bool)
      modifies this
      ensures threw <==> ApplyNode(g, old(View()), key, f, p).Threw?
      ensures View() == ApplyNode(g, old(View()), key, f, p).rt
      ensures ret == match ApplyNode(g, old(View()), key, f, p) case Wrote(_, v) => Some(v) case _ => None
    {
      var id := g.node(p).id;
      if id !in descs {
        descs := descs[id := g.nodeDesc(id)];
      }
      ret, threw := Store(descs[id], key, f, true);
    }

    method ApplyPexprRship(key: string, f: FType, r: nat) returns (ret: Option<Val>, threw: bool)
      modifies this
      ensures threw <==> ApplyRship(g, old(View()), key, f, r).Threw?
      ensures View() == ApplyRship(g, old(View()), key, f, r).rt
      ensures ret == match ApplyRship(g, old(View()), key, f, r) case Wrote(_, v) => Some(v) case _ => None
    {
      var id := g.rship(r).id;
      if id !in rdescs {
        rdescs := rdescs[id := g.rshipDesc(id)];
      }
      ret, threw := Store(rdescs[id], key, f, false);
    }

    method MatRegValue(reg: Val, ty: nat) returns (ok: bool)
      modifies this`tp
      ensures ok == Convert(g, old(View()), reg, ty).Some?
      ensures View() == if ok then old(View()).(tp := old(tp) + [Convert(g, old(View()), reg, ty).value])
                        else old(View())
    {
      ok := true;
      match reg {
        case NodeV(p) =>
          if ty == 0 { tp := tp + [OStr(g.nodeText(g.node(p).id))]; } else { ok := false; }
        case RshipV(id) =>
          if ty == 1 { tp := tp + [OStr(g.rshipText(g.rship(id).id))]; } else { ok := false; }
        case PropV(PInt(i)) =>
          if ty == 2 { tp := tp + [OInt(i)]; } else { ok := false; }
        case IntV(n) =>
          if ty == 2 {
            tp := tp + [OInt(n)];
          } else if (ty == 5 || ty == 6) && n in timeResult {
            tp := tp + [OTime(timeResult[n])];
          } else if ty == 8 && n in uintResult {
            tp := tp + [OU64(uintResult[n])];
          } else if ty == 4 && n in strResult {
            tp := tp + [OStr(strResult[n])];
          } else {
            ok := false;
          }
        case _ => ok := false;
      }
    }

    method CollectTupleRow()
      modifies this`tp, this`resultData
      ensures View() == CollectTp(old(View()))
    {
      resultData := resultData + [tp];
      tp := [];
    }

    method MaterializeRhs(jid: nat)
      modifies this`rhsInput, this`matTuple
      ensures View() == CollectJoinTp(old(View()), jid)
    {
      rhsInput := rhsInput[jid := (if jid in rhsInput then rhsInput[jid] else []) + [matTuple]];
      matTuple := [];
    }

    method ForeachFromVariableRship(p: nat, code: nat, min: int, max: int)
      modifies this`fevRshipList, this`fevListIter
      ensures View() == FevGather(g, old(View()), p, code, min, max)
    {
      fevRshipList := fevRshipList + g.varHop(p, code, min, max);
      fevListIter := 0;
    }

    method FevListEnd() returns (isEnd: bool)
      modifies this`fevRshipList, this`fevListIter
      ensures (isEnd, View()) == FevDone(old(View()))
    {
      isEnd := fevListIter == |fevRshipList|;
      if isEnd {
        fevRshipList := [];
      }
    }

    /** One activation of the variable-hop loop, with nothing in its body that touches the list:
        it yields what was left in the list, then what was gathered for this node, and leaves the
        list empty. */
    method Activation(p: nat, code: nat, min: int, max: int) returns (seen: seq<nat>)
      modifies this`fevRshipList, this`fevListIter
      ensures seen == old(fevRshipList) + g.varHop(p, code, min, max)
      ensures fevRshipList == []
    {
      ForeachFromVariableRship(p, code, min, max);
      ghost var all := fevRshipList;
      seen := [];
      var isEnd := FevListEnd();
      while !isEnd
        invariant isEnd ==> seen == all && fevRshipList == []
        invariant !isEnd ==> fevRshipList == all && fevListIter < |all| && seen == all[..fevListIter]
        decreases if isEnd then 0 else 1 + |all| - fevListIter
      {
        seen := seen + [fevRshipList[fevListIter]];
        fevListIter := fevListIter + 1;
        isEnd := FevListEnd();
      }
    }
  }
}
