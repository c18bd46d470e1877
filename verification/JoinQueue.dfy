/** The queue of join ids. A join pushes its id; the End of a pipeline pops the front and materializes
    into that join's input. This pairs every End with the join it feeds exactly if no pipeline has
    two joins. */
module JoinQueue {
  import opened Plan
  import opened Codegen
  import opened Shape

  // The second inputs of joins end in End.
  predicate WellEnded(r: Rest) {
    match r
    case Collect => true
    case End => true
    case Join(_, lhs, rhs) => WellEnded(lhs) && !EndsInCollect(rhs.rest) && WellEnded(rhs.rest)
    case _ => WellEnded(r.next)
  }

  // No pipeline of the tree has two joins.
  predicate SingleJoins(r: Rest) {
    match r
    case Collect => true
    case End => true
    case Join(_, lhs, rhs) => !HasJoin(lhs) && SingleJoins(lhs) && SingleJoins(rhs.rest)
    case _ => SingleJoins(r.next)
  }

  // The join input that the End of a pipeline materializes into.
  function EndJid(r: Rest, cs: Cg): nat
    decreases r
  {
    if EndsPipeline(r) then FrontJid(cs) else EndJid(Tail(r), After(r, cs))
  }

  // Every End below materializes into the input of the join that consumes its pipeline.
  predicate Paired(r: Rest, cs: Cg)
    decreases r
  {
    match r
    case Collect => true
    case End => true
    case Join(_, lhs, rhs) =>
      var here := CompileRest(lhs, After(r, cs));
      Paired(lhs, After(r, cs)) && EndJid(rhs.rest, AfterScan(rhs, here)) == cs.nextJid
        && Paired(rhs.rest, AfterScan(rhs, here))
    case _ => Paired(r.next, After(r, cs))
  }

  lemma QueueAfter(r: Rest, cs: Cg)
    ensures After(r, cs).jids == if r.Join? then cs.jids + [cs.nextJid] else if r.End?
            && cs.jids != [] then cs.jids[1..] else cs.jids
    ensures After(r, cs).nextJid == if r.Join? then cs.nextJid + 1 else cs.nextJid
  {
    hide Grow, RhsTypes, CollectCode, EndCode, FilterBlocks, JoinBlocks, ForeachBlocks, VariableBlocks, ExpandBlocks;
  }

  lemma QueueAfterScan(p: Plan, cs: Cg)
    ensures AfterScan(p, cs).jids == cs.jids && AfterScan(p, cs).nextJid == cs.nextJid
  {
    hide ScanBlocks, IndexBlocks;
  }

  // What the end of a pipeline leaves of the queue.
  function Left(r: Rest, jids: seq<nat>): seq<nat> {
    if EndsInCollect(r) || jids == [] then jids else jids[1..]
  }

  lemma {:induction false} NoJoinQueue(r: Rest, cs: Cg)
    requires !HasJoin(r)
    ensures CompileRest(r, cs).jids == Left(r, cs.jids) && CompileRest(r, cs).nextJid == cs.nextJid
    decreases r
  {
    hide After;
    QueueAfter(r, cs);
    if !EndsPipeline(r) {
      NoJoinQueue(Tail(r), After(r, cs));
    }
  }

  // Whatever is pushed on the way, End finds what was in front.
  lemma {:induction false} EndFront(r: Rest, cs: Cg)
    requires cs.jids != []
    ensures EndJid(r, cs) == cs.jids[0]
    decreases r
  {
    hide After;
    QueueAfter(r, cs);
    if !EndsPipeline(r) {
      EndFront(Tail(r), After(r, cs));
    }
  }

  // With another join's id in front, the last join of the pipeline does not get its own input.
  lemma {:induction false} Mismatch(r: Rest, cs: Cg)
    requires HasJoin(r) && Left(r, cs.jids) != [] && Left(r, cs.jids)[0] < cs.nextJid
             && (!EndsInCollect(r) ==> cs.jids != [])
    ensures !Paired(r, cs)
    decreases r
  {
    hide After, AfterScan;
    QueueAfter(r, cs);
    if r.Join? && !HasJoin(r.lhs) {
      NoJoinQueue(r.lhs, After(r, cs));
      var here := CompileRest(r.lhs, After(r, cs));
      QueueAfterScan(r.rhs, here);
      EndFront(r.rhs.rest, AfterScan(r.rhs, here));
    } else {
      Mismatch(Tail(r), After(r, cs));
    }
  }

  // The queue when a pipeline is compiled: the id of the join it feeds, if any.
  predicate OwnId(r: Rest, cs: Cg) {
    if EndsInCollect(r) then cs.jids == [] else |cs.jids| == 1 && cs.jids[0] < cs.nextJid
  }

  /** First in, first out pairs ids and joins if and only if no pipeline has two joins. */
  lemma {:induction false} PairedIffSingle(r: Rest, cs: Cg)
    requires WellEnded(r) && OwnId(r, cs)
    ensures Paired(r, cs) <==> SingleJoins(r)
    ensures SingleJoins(r) ==> CompileRest(r, cs).jids == []
    decreases r
  {
    hide After, AfterScan;
    QueueAfter(r, cs);
    if r.Join? {
      if HasJoin(r.lhs) {
        Mismatch(r.lhs, After(r, cs));
      } else {
        var here := CompileRest(r.lhs, After(r, cs));
        NoJoinQueue(r.lhs, After(r, cs));
        NoneInside(r.lhs, After(r, cs));
        QueueAfterScan(r.rhs, here);
        EndFront(r.rhs.rest, AfterScan(r.rhs, here));
        PairedIffSingle(r.rhs.rest, AfterScan(r.rhs, here));
      }
    } else if !EndsPipeline(r) {
      PairedIffSingle(Tail(r), After(r, cs));
    }
  }

  lemma {:induction false} NoneInside(r: Rest, cs: Cg)
    requires !HasJoin(r)
    ensures Paired(r, cs) && SingleJoins(r)
    decreases r
  {
    hide After;
    if !EndsPipeline(r) {
      NoneInside(Tail(r), After(r, cs));
    }
  }

  /** For whole queries. */
  lemma QueryPaired(dict: string -> nat, p: Plan)
    requires EndsInCollect(p.rest) && WellEnded(p.rest)
    ensures Paired(p.rest, AfterScan(p, Start(dict))) <==> SingleJoins(p.rest)
  {
    hide AfterScan;
    QueueAfterScan(p, Start(dict));
    PairedIffSingle(p.rest, AfterScan(p, Start(dict)));
  }
}
