/** The arguments the engine extracts from a plan. A walk over the operators appends the labels of scans
    and traversals; slots that it does not fill shift everything behind them. */
module QueryArgs {
  import opened Machine
  import opened Plan

  // ----- the labels the walk finds -----

  // Scans in front of a second input are reached without being visited.
  function Labels(r: Rest): seq<Arg> {
    match r
    case Foreach(_, _, _, l, next) => [LabelArg(l)] + Labels(next)
    case Expand(_, l, next) => [LabelArg(l)] + Labels(next)
    case Join(_, lhs, rhs) => Labels(lhs) + Labels(rhs.rest)
    case Collect => []
    case End => []
    case _ => Labels(r.next)
  }

  function Extracted(p: Plan): seq<Arg> {
    [LabelArg(p.scan.lbl)] + Labels(p.rest)
  }

  // A sort in any pipeline of the query.
  predicate Sorts(r: Rest) {
    match r
    case Sort(_) => true
    case Join(_, lhs, rhs) => Sorts(lhs) || Sorts(rhs.rest)
    case Collect => false
    case End => false
    case _ => Sorts(r.next)
  }

  /** A sort is one of the operators of the pipeline, or of a second input of one of its joins. */
  lemma {:induction false} SortsIff(r: Rest)
    ensures Sorts(r) <==> AnySorts(Walked(r))
    decreases r
  {
    hide SortsAt, AnySorts;
    if r.Collect? || r.End? {
      NoSorts();
    } else {
      SortsIff(Tail(r));
      SortsHere(r);
      SortsFirst(r, Walked(Tail(r)));
    }
  }

  predicate AnySorts(ops: seq<Rest>) {
    exists i :: 0 <= i < |ops| && SortsAt(ops[i])
  }

  lemma NoSorts()
    ensures !AnySorts([])
  {
  }

  lemma SortsFirst(r: Rest, rest: seq<Rest>)
    ensures AnySorts([r] + rest) <==> SortsAt(r) || AnySorts(rest)
  {
    hide SortsAt;
    var ops := [r] + rest;
    assert ops[0] == r && forall i :: 0 <= i < |rest| ==> rest[i] == ops[i + 1];
  }

  predicate SortsAt(op: Rest) {
    op.Sort? || (op.Join? && Sorts(op.rhs.rest))
  }

  lemma SortsHere(r: Rest)
    requires !r.Collect? && !r.End?
    ensures Sorts(r) <==> SortsAt(r) || Sorts(Tail(r))
  {
  }

  // ----- the walk -----

  datatype Op = AtScan(p: Plan) | AtRest(r: Rest)

  predicate HasInput(op: Op) {
    op.AtScan? || !(op.r.Collect? || op.r.End?)
  }

  function Input(op: Op): Rest
    requires HasInput(op)
  {
    match op case AtScan(p) => p.rest case AtRest(r) => Tail(r)
  }

  function OpLabels(op: Op): seq<Arg> {
    match op case AtScan(p) => Extracted(p) case AtRest(r) => Labels(r)
  }

  function OwnLabel(op: Op): seq<Arg> {
    match op
    case AtScan(p) => [LabelArg(p.scan.lbl)]
    case AtRest(Foreach(_, _, _, l, _)) => [LabelArg(l)]
    case AtRest(Expand(_, l, _)) => [LabelArg(l)]
    case AtRest(_) => []
  }

  // The plans kept for later, the last one first.
  function Stacked(later: seq<Plan>): seq<Arg> {
    if later == [] then [] else Labels(later[|later| - 1].rest) + Stacked(later[..|later| - 1])
  }

  predicate StackedSorts(later: seq<Plan>) {
    later != [] && (Sorts(later[|later| - 1].rest) || StackedSorts(later[..|later| - 1]))
  }

  function Count(r: Rest): nat {
    match r
    case Join(_, lhs, rhs) => 2 + Count(lhs) + Count(rhs.rest)
    case Collect => 1
    case End => 1
    case _ => 1 + Count(r.next)
  }

  function StackedCount(later: seq<Plan>): nat {
    if later == [] then 0 else 1 + Count(later[|later| - 1].rest) + StackedCount(later[..|later| - 1])
  }

  function OpCount(op: Op): nat {
    match op case AtScan(p) => 1 + Count(p.rest) case AtRest(r) => Count(r)
  }

  // What is still to come in the walk: its labels, its sorts, and how many operators that is.
  function Todo(op: Op, later: seq<Plan>): seq<Arg> {
    OpLabels(op) + Stacked(later)
  }

  predicate TodoSorts(op: Op, later: seq<Plan>) {
    (match op case AtScan(p) => Sorts(p.rest) case AtRest(r) => Sorts(r)) || StackedSorts(later)
  }

  function TodoCount(op: Op, later: seq<Plan>): nat {
    OpCount(op) + StackedCount(later)
  }

  // Joins put their second input on top of the plans kept for later.
  function Later(op: Op, later: seq<Plan>): seq<Plan> {
    if op.AtRest? && op.r.Join? then later + [op.r.rhs] else later
  }

  lemma Visit(op: Op, later: seq<Plan>)
    requires HasInput(op)
    ensures var next, kept := AtRest(Input(op)), Later(op, later);
            && Todo(op, later) == OwnLabel(op) + Todo(next, kept)
            && (TodoSorts(op, later) <==> (op.AtRest? && op.r.Sort?) || TodoSorts(next, kept))
            && TodoCount(next, kept) < TodoCount(op, later)
  {
    hide Stacked, StackedSorts, StackedCount, Sorts, Labels, OpLabels, OwnLabel, Count, OpCount;
    var r := Input(op);
    OneOp(op);
    if op.AtRest? && op.r.Join? {
      OnTop(later, op.r.rhs);
      assert Labels(r) + Labels(op.r.rhs.rest) + Stacked(later) == Labels(r) + (Labels(op.r.rhs.rest) + Stacked(later));
    } else {
      assert OwnLabel(op) + Labels(r) + Stacked(later) == OwnLabel(op) + (Labels(r) + Stacked(later));
    }
    Ahead(AtRest(r));
  }

  lemma Ahead(op: Op)
    requires op.AtRest?
    ensures OpLabels(op) == Labels(op.r) && OpCount(op) == Count(op.r)
  {
  }

  lemma OneOp(op: Op)
    requires HasInput(op)
    ensures var r := Input(op);
            if op.AtRest? && op.r.Join? then
              && OpLabels(op) == Labels(r) + Labels(op.r.rhs.rest) && OwnLabel(op) == []
              && (Sorts(op.r) <==> Sorts(r) || Sorts(op.r.rhs.rest))
              && OpCount(op) == 2 + Count(r) + Count(op.r.rhs.rest)
            else
              && OpLabels(op) == OwnLabel(op) + Labels(r) && OpCount(op) == 1 + Count(r)
              && (op.AtRest? ==> (Sorts(op.r) <==> op.r.Sort? || Sorts(r)))
  {
  }

  lemma OnTop(later: seq<Plan>, p: Plan)
    ensures Stacked(later + [p]) == Labels(p.rest) + Stacked(later)
    ensures StackedSorts(later + [p]) <==> Sorts(p.rest) || StackedSorts(later)
    ensures StackedCount(later + [p]) == 1 + Count(p.rest) + StackedCount(later)
  {
    assert (later + [p])[..|later|] == later;
  }

  // At the end of a pipeline the walk goes on behind the scan that was kept last.
  lemma Resume(op: Op, later: seq<Plan>)
    requires !HasInput(op) && later != []
    ensures var next, kept := AtRest(later[|later| - 1].rest), later[..|later| - 1];
            && Todo(op, later) == Todo(next, kept)
            && (TodoSorts(op, later) <==> TodoSorts(next, kept))
            && TodoCount(next, kept) < TodoCount(op, later)
  {
  }

  lemma Ends(op: Op)
    ensures op.AtScan? ==> Todo(op, []) == Extracted(op.p) && (TodoSorts(op, []) <==> Sorts(op.p.rest))
    ensures !HasInput(op) ==> Todo(op, []) == [] && !TodoSorts(op, []) && OwnLabel(op) == []
  {
  }

  // The array with some arguments laid over it.
  function Overlay(a: seq<Arg>, at: nat, e: seq<Arg>): seq<Arg>
    requires at + |e| <= |a|
  {
    a[..at] + e + a[at + |e|..]
  }

  lemma OverlayNone(a: seq<Arg>, at: nat)
    requires at <= |a|
    ensures Overlay(a, at, []) == a
  {
  }

  lemma OverlayMore(a: seq<Arg>, at: nat, e: seq<Arg>, f: seq<Arg>)
    requires at + |e| + |f| <= |a|
    ensures Overlay(Overlay(a, at, e), at + |e|, f) == Overlay(a, at, e + f)
  {
  }

  class QueryEngine {
    const args: array<Arg>
    var argCounter: nat

    // An engine starts with empty slots and the counter at the first.
    constructor ()
      ensures fresh(args) && args.Length == MAX_ARGS && argCounter == 1
      ensures args[..] == seq(MAX_ARGS, i => NoArg)
    {
      args := new Arg[MAX_ARGS](i => NoArg);
      argCounter := 1;
    }

    // Filters and the second index argument are left for later versions.
    method ExtractArg(op: Op)
      requires argCounter + |OwnLabel(op)| <= args.Length
      modifies this`argCounter, args
      ensures argCounter == old(argCounter) + |OwnLabel(op)|
      ensures args[..] == Overlay(old(args[..]), old(argCounter), OwnLabel(op))
    {
      match op {
        case AtScan(p) =>
          args[argCounter] := LabelArg(p.scan.lbl);
          argCounter := argCounter + 1;
        case AtRest(Foreach(_, _, _, l, _)) =>
          args[argCounter] := LabelArg(l);
          argCounter := argCounter + 1;
        case AtRest(Expand(_, l, _)) =>
          args[argCounter] := LabelArg(l);
          argCounter := argCounter + 1;
        case AtRest(_) =>
      }
    }

    /** The walk over a query's operators: it lays the labels over the array from the counter on, in the
        order of the argument slots, and finds a sort wherever it stands. */
    method ExtractArgs(query: Plan) returns (sorted: bool)
      requires argCounter + |Extracted(query)| <= args.Length
      modifies this`argCounter, args
      ensures argCounter == old(argCounter) + |Extracted(query)|
      ensures args[..] == Overlay(old(args[..]), old(argCounter), Extracted(query))
      ensures sorted <==> Sorts(query.rest)
    {
      hide Todo, TodoSorts, TodoCount, Extracted, Overlay, OpLabels, OwnLabel, Sorts, Stacked, Labels;
      var op, later := AtScan(query), [];
      ghost var found: seq<Arg> := [];
      sorted := false;
      Ends(op);
      OverlayNone(args[..], argCounter);
      while HasInput(op) || later != []
        invariant found + Todo(op, later) == Extracted(query)
        invariant argCounter == old(argCounter) + |found|
        invariant args[..] == Overlay(old(args[..]), old(argCounter), found)
        invariant sorted || TodoSorts(op, later) <==> Sorts(query.rest)
        decreases TodoCount(op, later)
      {
        Ends(op);
        if HasInput(op) {
          Visit(op, later);
          assert found + Todo(op, later) == found + OwnLabel(op) + Todo(AtRest(Input(op)), Later(op, later));
        } else {
          Resume(op, later);
          assert found + [] == found;
        }
        OverlayMore(old(args[..]), old(argCounter), found, OwnLabel(op));
        ExtractArg(op);
        found := found + OwnLabel(op);
        if !HasInput(op) {
          op, later := AtScan(later[|later| - 1]), later[..|later| - 1];
        }
        if op.AtRest? && op.r.Sort? {
          sorted := true;
          op := AtRest(Input(op));
          continue;
        }
        if op.AtRest? && op.r.Join? {
          later := later + [op.r.rhs];
        }
        op := AtRest(Input(op));
      }
      Ends(op);
      assert found + [] == found;
    }
  }

  // ----- which plans it serves -----

  // An argument slot as the walk treats it: filled with a label that is read, filled for nobody, or skipped.
  datatype Slot = Given(label_: string) | Blank | Skipped(want: Arg)

  function Want(s: Slot): Arg {
    match s case Given(l) => LabelArg(l) case Blank => NoArg case Skipped(a) => a
  }

  function Wants(ss: seq<Slot>): seq<Arg> {
    seq(|ss|, i requires 0 <= i < |ss| => Want(ss[i]))
  }

  function Supply(s: Slot): seq<Arg> {
    match s case Given(l) => [LabelArg(l)] case Blank => [LabelArg("")] case Skipped(_) => []
  }

  function Supplied(ss: seq<Slot>): seq<Arg> {
    if ss == [] then [] else Supply(ss[0]) + Supplied(ss[1..])
  }

  lemma {:induction false} SuppliedAppend(a: seq<Slot>, b: seq<Slot>)
    ensures Supplied(a + b) == Supplied(a) + Supplied(b)
    decreases |a|
  {
    if a == [] {
      assert a + b == b;
    } else {
      SuppliedAppend(a[1..], b);
      assert (a + b)[1..] == a[1..] + b;
    }
  }

  lemma WantsAppend(a: seq<Slot>, b: seq<Slot>)
    ensures Wants(a + b) == Wants(a) + Wants(b)
  {
  }

  // The slots of a scan that is visited, and of one that is not.
  function ScanSlots(s: Scan, visited: bool): seq<Slot> {
    var own := if visited then Given(s.lbl) else Skipped(LabelArg(s.lbl));
    match s
    case ScanLabel(_) => [own]
    case ScanIndex(_, k, v) => [own, Skipped(LabelArg(k)), Skipped(ValueArg(v))]
  }

  function OwnSlot(r: Rest): seq<Slot> {
    match r
    case Foreach(_, _, _, l, _) => [Given(l)]
    case Expand(_, l, _) => [if l == "" then Blank else Given(l)]
    case Filter(_, _, v, _) => [Skipped(ValueArg(v))]
    case Limit(_, _) => [Skipped(NoArg)]
    case Sort(_) => [Skipped(NoArg)]
    case _ => []
  }

  function SlotList(r: Rest): seq<Slot> {
    match r
    case Collect => []
    case End => []
    case Join(_, lhs, rhs) => SlotList(lhs) + (ScanSlots(rhs.scan, false) + SlotList(rhs.rest))
    case _ => OwnSlot(r) + SlotList(r.next)
  }

  function QuerySlots(p: Plan): seq<Slot> {
    ScanSlots(p.scan, true) + SlotList(p.rest)
  }

  // The slots want what the compiled operators read, and are filled with what the walk extracts.
  lemma {:induction false} SlotsOfRest(r: Rest)
    ensures Wants(SlotList(r)) == RestArgs(r) && Supplied(SlotList(r)) == Labels(r)
    decreases r
  {
    match r
    case Collect =>
    case End =>
    case Join(_, lhs, rhs) => SlotsOfRest(lhs); SlotsOfRest(rhs.rest); SlotsOfJoin(r);
    case _ => SlotsOfRest(r.next); SlotsOfOne(r);
  }

  lemma SlotsOfJoin(r: Rest)
    requires r.Join? && Wants(SlotList(r.lhs)) == RestArgs(r.lhs) && Supplied(SlotList(r.lhs)) == Labels(r.lhs)
    requires Wants(SlotList(r.rhs.rest)) == RestArgs(r.rhs.rest) && Supplied(SlotList(r.rhs.rest)) == Labels(r.rhs.rest)
    ensures Wants(SlotList(r)) == RestArgs(r) && Supplied(SlotList(r)) == Labels(r)
  {
    hide Wants, Supplied, ScanSlots, OwnSlot, OwnArgs, ScanArgs, SlotList, RestArgs, Labels;
    var b := ScanSlots(r.rhs.scan, false) + SlotList(r.rhs.rest);
    JoinParts(r);
    assert [] + Labels(r.rhs.rest) == Labels(r.rhs.rest);
    SlotsOfScan(r.rhs.scan, false, r.rhs.rest);
    WantsAppend(SlotList(r.lhs), b);
    SuppliedAppend(SlotList(r.lhs), b);
  }

  lemma JoinParts(r: Rest)
    requires r.Join?
    ensures SlotList(r) == SlotList(r.lhs) + (ScanSlots(r.rhs.scan, false) + SlotList(r.rhs.rest))
    ensures RestArgs(r) == RestArgs(r.lhs) + (ScanArgs(r.rhs.scan) + RestArgs(r.rhs.rest))
    ensures Labels(r) == Labels(r.lhs) + Labels(r.rhs.rest)
  {
  }

  lemma SlotsOfOne(r: Rest)
    requires !r.Join? && !r.Collect? && !r.End?
    requires Wants(SlotList(r.next)) == RestArgs(r.next) && Supplied(SlotList(r.next)) == Labels(r.next)
    ensures Wants(SlotList(r)) == RestArgs(r) && Supplied(SlotList(r)) == Labels(r)
  {
    WantsAppend(OwnSlot(r), SlotList(r.next));
    SuppliedAppend(OwnSlot(r), SlotList(r.next));
    assert Wants(OwnSlot(r)) == OwnArgs(r);
  }

  lemma SlotsOfScan(s: Scan, visited: bool, r: Rest)
    requires Wants(SlotList(r)) == RestArgs(r) && Supplied(SlotList(r)) == Labels(r)
    ensures Wants(ScanSlots(s, visited) + SlotList(r)) == ScanArgs(s) + RestArgs(r)
    ensures Supplied(ScanSlots(s, visited) + SlotList(r)) == (if visited then [LabelArg(s.lbl)] else []) + Labels(r)
  {
    WantsAppend(ScanSlots(s, visited), SlotList(r));
    SuppliedAppend(ScanSlots(s, visited), SlotList(r));
    assert Wants(ScanSlots(s, visited)) == ScanArgs(s);
    SuppliedScan(s, visited);
  }

  lemma SuppliedScan(s: Scan, visited: bool)
    ensures Supplied(ScanSlots(s, visited)) == if visited then [LabelArg(s.lbl)] else []
  {
    var ss := ScanSlots(s, visited);
    if s.ScanIndex? {
      assert ss[1..] == [Skipped(LabelArg(s.prop)), Skipped(ValueArg(s.value))];
      assert Supplied([Skipped(ValueArg(s.value))]) == [];
      assert Supplied(ss[1..]) == [] by {
        assert ss[1..][1..] == [Skipped(ValueArg(s.value))];
      }
    }
  }

  // Every wanted argument is in its place.
  predicate Fits(ss: seq<Slot>) {
    forall i :: 0 <= i < |ss| && Want(ss[i]) != NoArg ==> i < |Supplied(ss)| && Supplied(ss)[i] == Want(ss[i])
  }

  function FirstSkipped(ss: seq<Slot>): (n: nat)
    ensures n <= |ss|
  {
    if ss == [] || ss[0].Skipped? then 0 else 1 + FirstSkipped(ss[1..])
  }

  // Behind a skipped slot every argument comes from a later one.
  lemma {:induction false} Origin(ss: seq<Slot>, i: nat) returns (p: nat)
    requires i < |Supplied(ss)|
    ensures i <= p < |ss| && !ss[p].Skipped? && Supplied(ss)[i] == Supply(ss[p])[0] && (ss[0].Skipped? ==> p > i)
    decreases |ss|
  {
    if ss[0].Skipped? {
      p := Origin(ss[1..], i);
      p := p + 1;
    } else if i == 0 {
      p := 0;
    } else {
      p := Origin(ss[1..], i - 1);
      p := p + 1;
    }
  }

  lemma {:induction false} OnlyEmpty(ss: seq<Slot>, j: nat)
    requires ss != [] && ss[0].Skipped? && Fits(ss) && j <= |ss|
    ensures forall i :: j <= i < |ss| && Want(ss[i]) != NoArg ==> Want(ss[i]) == LabelArg("")
    decreases |ss| - j
  {
    if j < |ss| {
      OnlyEmpty(ss, j + 1);
      if Want(ss[j]) != NoArg {
        var p := Origin(ss, j);
      }
    }
  }

  lemma SkippedIff(ss: seq<Slot>)
    requires ss != [] && ss[0].Skipped?
    ensures Fits(ss) <==>
            forall i :: 0 <= i < |ss| && Want(ss[i]) != NoArg ==> Want(ss[i]) == LabelArg("") && i < |Supplied(ss)|
  {
    if Fits(ss) {
      OnlyEmpty(ss, 0);
    }
    if forall i :: 0 <= i < |ss| && Want(ss[i]) != NoArg ==> Want(ss[i]) == LabelArg("") && i < |Supplied(ss)| {
      forall i | 0 <= i < |ss| && Want(ss[i]) != NoArg
        ensures i < |Supplied(ss)| && Supplied(ss)[i] == Want(ss[i])
      {
        var p := Origin(ss, i);
      }
    }
  }

  // What is left to ask of the slots from a position on.
  predicate Empties(ss: seq<Slot>, from_: nat) {
    forall i :: from_ <= i < |ss| && Want(ss[i]) != NoArg ==> Want(ss[i]) == LabelArg("") && i < |Supplied(ss)|
  }

  /** Up to the first skipped slot everything is in place; from there on nothing is, but an empty label. */
  lemma {:induction false} FitsIff(ss: seq<Slot>)
    ensures Fits(ss) <==> Empties(ss, FirstSkipped(ss))
    decreases |ss|
  {
    if ss != [] && ss[0].Skipped? {
      SkippedIff(ss);
    } else if ss != [] {
      var rest := ss[1..];
      FitsIff(rest);
      assert Supplied(ss) == Supply(ss[0]) + Supplied(rest);
      assert forall i :: 0 <= i < |rest| ==> rest[i] == ss[i + 1];
      assert forall i :: 1 <= i < |ss| ==> ss[i] == rest[i - 1];
    }
  }

  // The array after an engine has extracted the arguments of its first query.
  function EngineArgs(p: Plan): seq<Arg>
    requires |Extracted(p)| <= 63
  {
    Overlay(seq(MAX_ARGS, i => NoArg), 1, Extracted(p))
  }

  // A new engine, and its first query.
  method FirstArgs(query: Plan) returns (args: seq<Arg>)
    requires |Extracted(query)| <= 63
    ensures args == EngineArgs(query) && |args| == 64
  {
    var engine := new QueryEngine();
    var sorted := engine.ExtractArgs(query);
    args := engine.args[..];
  }

  /** The array an engine extracts for its first query is one that the compiled function can run with if
      and only if there are slots enough and, from the first slot the walk skips, all that an operator
      reads is the empty label. */
  lemma EngineArgsIff(p: Plan)
    requires |Extracted(p)| <= 63
    ensures var ss := QuerySlots(p);
            && Wants(ss) == PlanArgs(p)
            && (ArgsFrom(EngineArgs(p), 1, PlanArgs(p)) <==> |ss| <= 63 && Empties(ss, FirstSkipped(ss)))
  {
    hide Wants, Supplied, Fits, Empties, ArgsFrom, SlotList, ScanSlots, Extracted, Overlay, Labels;
    var ss := QuerySlots(p);
    SlotsOfRest(p.rest);
    SlotsOfScan(p.scan, true, p.rest);
    ExtractedIs(p);
    FitsIff(ss);
    ArrayIff(ss);
  }

  lemma ExtractedIs(p: Plan)
    ensures Extracted(p) == [LabelArg(p.scan.lbl)] + Labels(p.rest)
  {
  }

  lemma ArrayIff(ss: seq<Slot>)
    requires |Supplied(ss)| <= 63
    ensures ArgsFrom(Overlay(seq(MAX_ARGS, i => NoArg), 1, Supplied(ss)), 1, Wants(ss))
            <==> |ss| <= 63 && Fits(ss)
  {
    hide Want, Supplied;
    var args, e := Overlay(seq(MAX_ARGS, i => NoArg), 1, Supplied(ss)), Supplied(ss);
    assert |args| == MAX_ARGS;
    assert forall i {:trigger args[1 + i]} :: 0 <= i && 1 + i < MAX_ARGS ==>
             args[1 + i] == if i < |e| then e[i] else NoArg;
    assert forall i :: 0 <= i < |ss| ==> Wants(ss)[i] == Want(ss[i]);
    if |ss| <= 63 {
      forall i | 0 <= i < |ss| && Want(ss[i]) != NoArg
        ensures args[1 + i] == Want(ss[i]) <==> i < |e| && e[i] == Want(ss[i])
      {
      }
    }
  }

  // ----- the same, in terms of the plan -----

  // Some operator from here on reads an argument.
  predicate ReadsArg(r: Rest) {
    match r
    case Foreach(_, _, _, _, _) => true
    case Expand(_, l, next) => l != "" || ReadsArg(next)
    case Filter(_, _, _, _) => true
    case Join(_, _, _) => true
    case Collect => false
    case End => false
    case _ => ReadsArg(r.next)
  }

  // No filter, no join, and nothing that reads an argument behind a limit or a sort.
  predicate Served(r: Rest) {
    match r
    case Filter(_, _, _, _) => false
    case Join(_, _, _) => false
    case Limit(_, next) => !ReadsArg(next)
    case Sort(next) => !ReadsArg(next)
    case Collect => true
    case End => true
    case _ => Served(r.next)
  }

  predicate NoneWanted(ss: seq<Slot>, from_: nat) {
    forall i :: from_ <= i < |ss| ==> Want(ss[i]) == NoArg
  }

  lemma {:induction false} ReadsSlots(r: Rest)
    ensures NoneWanted(SlotList(r), 0) <==> !ReadsArg(r)
    decreases r
  {
    match r
    case Collect =>
    case End =>
    case Join(_, lhs, rhs) => ReadsJoin(r);
    case _ => ReadsSlots(r.next); OwnWanted(r); WantedOf(OwnSlot(r), SlotList(r.next));
  }

  lemma OwnWanted(r: Rest)
    requires !r.Join? && !r.Collect? && !r.End?
    ensures ReadsArg(r) <==> !NoneWanted(OwnSlot(r), 0) || ReadsArg(r.next)
  {
    assert OwnSlot(r) != [] ==> (NoneWanted(OwnSlot(r), 0) <==> Want(OwnSlot(r)[0]) == NoArg);
  }

  lemma WantedOf(own: seq<Slot>, ss: seq<Slot>)
    ensures NoneWanted(own + ss, 0) <==> NoneWanted(own, 0) && NoneWanted(ss, 0)
  {
    assert forall i :: 0 <= i < |own| ==> own[i] == (own + ss)[i];
    assert forall i :: 0 <= i < |ss| ==> ss[i] == (own + ss)[|own| + i];
  }

  lemma ReadsJoin(r: Rest)
    requires r.Join?
    ensures !NoneWanted(SlotList(r), 0)
  {
    assert SlotList(r)[|SlotList(r.lhs)|] == ScanSlots(r.rhs.scan, false)[0];
  }

  // From the first skipped slot on nothing is wanted exactly in the plans that are served.
  lemma {:induction false} ServedSlots(r: Rest)
    ensures NoneWanted(SlotList(r), FirstSkipped(SlotList(r))) <==> Served(r)
    decreases r
  {
    match r
    case Collect =>
    case End =>
    case Join(_, lhs, rhs) => ServedJoin(r);
    case _ =>
      ReadsSlots(r.next);
      ServedSlots(r.next);
      Shifted(OwnSlot(r), SlotList(r.next));
  }

  lemma Shifted(own: seq<Slot>, ss: seq<Slot>)
    requires |own| <= 1
    ensures own != [] && !own[0].Skipped? ==>
              (NoneWanted(own + ss, FirstSkipped(own + ss)) <==> NoneWanted(ss, FirstSkipped(ss)))
    ensures own != [] && own[0].Skipped? ==>
              (NoneWanted(own + ss, FirstSkipped(own + ss)) <==> Want(own[0]) == NoArg && NoneWanted(ss, 0))
    ensures own == [] ==> own + ss == ss
  {
    if own != [] {
      assert (own + ss)[1..] == ss;
      assert forall i :: 1 <= i < |own + ss| ==> (own + ss)[i] == ss[i - 1];
      assert forall i :: 0 <= i < |ss| ==> ss[i] == (own + ss)[i + 1];
    }
  }

  // The scan of a second input is skipped and wanted.
  lemma ServedJoin(r: Rest)
    requires r.Join?
    ensures !NoneWanted(SlotList(r), FirstSkipped(SlotList(r)))
  {
    var ss, i := SlotList(r), |SlotList(r.lhs)|;
    assert ss[i] == ScanSlots(r.rhs.scan, false)[0];
    FirstIsFirst(ss, i);
  }

  lemma {:induction false} FirstIsFirst(ss: seq<Slot>, i: nat)
    requires i < |ss| && ss[i].Skipped?
    ensures FirstSkipped(ss) <= i
    decreases i
  {
    if !ss[0].Skipped? {
      FirstIsFirst(ss[1..], i - 1);
    }
  }

  /** In terms of the plan: if no operator reads the empty label, the engine's own array serves exactly the plans of
      at most 63 slots that scan a label and have no filter, no join, and no traversal by label behind a
      limit or a sort. */
  lemma ServedIff(p: Plan)
    requires |Extracted(p)| <= 63 && LabelArg("") !in PlanArgs(p)
    ensures ArgsFrom(EngineArgs(p), 1, PlanArgs(p)) <==> TotalPlan(p) <= 63 && p.scan.ScanLabel? && Served(p.rest)
  {
    hide EngineArgs, ArgsFrom, SlotList, Served;
    var ss := QuerySlots(p);
    EngineArgsIff(p);
    RestArgsTotal(p.rest);
    assert forall i :: 0 <= i < |ss| ==> Wants(ss)[i] == Want(ss[i]) && Wants(ss)[i] in PlanArgs(p);
    assert Empties(ss, FirstSkipped(ss)) <==> NoneWanted(ss, FirstSkipped(ss));
    ServedSlots(p.rest);
    if p.scan.ScanLabel? {
      Shifted([Given(p.scan.lbl)], SlotList(p.rest));
    } else {
      assert ss[1] == Skipped(LabelArg(p.scan.prop));
      FirstIsFirst(ss, 1);
    }
  }

  // A failing input: all pairs of a node with one label and a node with another. The second scan finds nothing
  // in its slot.
  lemma SecondScanMissing(a: string, b: string)
    requires a != "" && b != ""
    ensures var p := Plan(ScanLabel(a), Join(Cross, Collect, Plan(ScanLabel(b), End)));
            && PlanArgs(p) == [LabelArg(a), LabelArg(b)] && Extracted(p) == [LabelArg(a)]
            && EngineArgs(p)[1..3] == [LabelArg(a), NoArg]
            && !ArgsFrom(EngineArgs(p), 1, PlanArgs(p))
  {
    var rhs := Plan(ScanLabel(b), End);
    assert PlanArgs(rhs) == [LabelArg(b)];
    assert RestArgs(Join(Cross, Collect, rhs)) == RestArgs(Collect) + PlanArgs(rhs);
    assert Labels(Join(Cross, Collect, rhs)) == Labels(Collect) + Labels(End);
    ServedIff(Plan(ScanLabel(a), Join(Cross, Collect, rhs)));
  }
}
