/** The numbering of operators into argument slots. The counter is passed by reference through the whole
    tree, so both inputs of a join draw from it. */
module ArgSlots {
  import opened Machine
  import opened Plan
  import opened Codegen
  import opened Shape

  // First slot and width of every operator that takes arguments, in the order of the numbering.
  type Slots = seq<(nat, nat)>

  function RestSlots(r: Rest, at: nat): Slots {
    match r
    case Collect => []
    case End => []
    case Join(_, lhs, rhs) => RestSlots(lhs, at) + PlanSlots(rhs, at + TotalRest(lhs))
    case _ => (if Width(r) == 0 then [] else [(at, Width(r))]) + RestSlots(r.next, at + Width(r))
  }

  function PlanSlots(p: Plan, at: nat): Slots {
    [(at, ScanWidth(p.scan))] + RestSlots(p.rest, at + ScanWidth(p.scan))
  }

  predicate Apart(s: Slots) {
    forall i, j :: 0 <= i < j < |s| ==> s[i].0 + s[i].1 <= s[j].0
  }

  predicate From(s: Slots, at: nat) {
    forall i :: 0 <= i < |s| ==> at <= s[i].0
  }

  predicate UpTo(s: Slots, end: nat) {
    forall i :: 0 <= i < |s| ==> s[i].0 + s[i].1 <= end
  }

  // The ranges lie one behind the other between two bounds, without a gap.
  ghost predicate Packed(s: Slots, from_: nat, to: nat)
    decreases |s|
  {
    if s == [] then from_ == to else s[0].0 == from_ && s[0].1 > 0 && Packed(s[1..], from_ + s[0].1, to)
  }

  lemma {:induction false} PackedAppend(a: Slots, b: Slots, from_: nat, mid: nat, to: nat)
    requires Packed(a, from_, mid) && Packed(b, mid, to)
    ensures Packed(a + b, from_, to)
    decreases |a|
  {
    if a == [] {
      assert a + b == b;
    } else {
      PackedAppend(a[1..], b, from_ + a[0].1, mid, to);
      assert (a + b)[1..] == a[1..] + b;
    }
  }

  lemma {:induction false} RestPacked(r: Rest, at: nat)
    ensures Packed(RestSlots(r, at), at, at + TotalRest(r))
    decreases r
  {
    if r.Join? {
      RestPacked(r.lhs, at);
      PlanPacked(r.rhs, at + TotalRest(r.lhs));
      PackedAppend(RestSlots(r.lhs, at), PlanSlots(r.rhs, at + TotalRest(r.lhs)), at, at + TotalRest(r.lhs),
                   at + TotalRest(r));
    } else if !EndsPipeline(r) {
      RestPacked(r.next, at + Width(r));
      OneMore(r, at);
    }
  }

  lemma OneMore(r: Rest, at: nat)
    requires !r.Join? && !EndsPipeline(r) && Packed(RestSlots(r.next, at + Width(r)), at + Width(r), at + TotalRest(r))
    ensures Packed(RestSlots(r, at), at, at + TotalRest(r))
  {
    var rest := RestSlots(r.next, at + Width(r));
    if Width(r) == 0 {
      assert [] + rest == rest;
    } else {
      assert ([(at, Width(r))] + rest)[1..] == rest;
    }
  }

  lemma {:induction false} PlanPacked(p: Plan, at: nat)
    ensures Packed(PlanSlots(p, at), at, at + TotalPlan(p))
    decreases p
  {
    RestPacked(p.rest, at + ScanWidth(p.scan));
    assert PlanSlots(p, at)[1..] == RestSlots(p.rest, at + ScanWidth(p.scan));
  }

  // Ranges packed one behind the other do not overlap, and reach exactly as far as the upper bound.
  lemma {:induction false} PackedApart(s: Slots, from_: nat, to: nat)
    requires Packed(s, from_, to)
    ensures from_ <= to
    ensures Apart(s) && From(s, from_) && UpTo(s, to)
    ensures s != [] ==> s[|s| - 1].0 + s[|s| - 1].1 == to
    decreases |s|
  {
    if s != [] {
      PackedApart(s[1..], from_ + s[0].1, to);
      assert forall i :: 1 <= i < |s| ==> s[i] == s[1..][i - 1];
    }
  }

  /** For every plan tree: the slot ranges of any two operators, on whichever side of a join, are
      disjoint; and all slots fit the argument array if and only if the widths add up to at most 63. */
  lemma SlotsApart(p: Plan)
    ensures Apart(PlanSlots(p, 1)) && (UpTo(PlanSlots(p, 1), MAX_ARGS) <==> TotalPlan(p) <= 63)
  {
    hide Packed, Apart, UpTo;
    PlanPacked(p, 1);
    PackedApart(PlanSlots(p, 1), 1, 1 + TotalPlan(p));
    PackedFits(PlanSlots(p, 1), 1, 1 + TotalPlan(p), MAX_ARGS);
  }

  lemma PackedFits(s: Slots, from_: nat, to: nat, end: nat)
    requires Packed(s, from_, to) && s != []
    ensures UpTo(s, end) <==> to <= end
  {
    hide Packed;
    PackedApart(s, from_, to);
    var last := |s| - 1;
    assert s[last].0 + s[last].1 == to;
  }

  lemma OpIdAfter(r: Rest, cs: Cg)
    ensures After(r, cs).opId == cs.opId + Width(r)
  {
    hide Grow, RhsTypes, CollectCode, EndCode, FilterBlocks, JoinBlocks, ForeachBlocks, VariableBlocks, ExpandBlocks;
  }

  lemma {:induction false} RestCounter(r: Rest, cs: Cg)
    ensures CompileRest(r, cs).opId == cs.opId + TotalRest(r)
    decreases r
  {
    hide After, AfterScan;
    OpIdAfter(r, cs);
    match r
    case Collect =>
    case End =>
    case Join(_, lhs, rhs) => RestCounter(lhs, After(r, cs)); PlanCounter(rhs, CompileRest(lhs, After(r, cs)));
    case _ => RestCounter(r.next, After(r, cs));
  }

  /** One pass advances the counter by the total width of the tree. */
  lemma {:induction false} PlanCounter(p: Plan, cs: Cg)
    ensures CompilePlan(p, cs).opId == cs.opId + TotalPlan(p)
    decreases p
  {
    hide ScanBlocks, IndexBlocks;
    RestCounter(p.rest, AfterScan(p, cs));
  }

  // ----- trees with create operators -----

  /** Any operator tree, by the widths of its operators: one, zero, three for an index scan, two for a create.
      An operator hands the advanced counter to its input, so one without an input advances nothing. */
  datatype Ops = Last(width: nat) | Over(width: nat, input: Ops) | Both(lhs: Ops, rhs: Ops)

  function Advance(t: Ops): nat {
    match t
    case Last(_) => 0
    case Over(w, input) => w + Advance(input)
    case Both(lhs, rhs) => Advance(lhs) + Advance(rhs)
  }

  function Own(w: nat, at: nat): Slots {
    if w == 0 then [] else [(at, w)]
  }

  function TreeSlots(t: Ops, at: nat): Slots {
    match t
    case Last(w) => Own(w, at)
    case Over(w, input) => Own(w, at) + TreeSlots(input, at + w)
    case Both(lhs, rhs) => TreeSlots(lhs, at) + TreeSlots(rhs, at + Advance(lhs))
  }

  predicate Takes(t: Ops) {
    match t
    case Last(w) => w > 0
    case Over(w, input) => w > 0 || Takes(input)
    case Both(lhs, rhs) => Takes(lhs) || Takes(rhs)
  }

  // No operator without an input takes slots, unless no operator numbered after it does.
  predicate Handed(t: Ops, followed: bool) {
    match t
    case Last(w) => w == 0 || !followed
    case Over(_, input) => Handed(input, followed)
    case Both(lhs, rhs) => Handed(lhs, followed || Takes(rhs)) && Handed(rhs, followed)
  }

  lemma {:induction false} TreeStart(t: Ops, at: nat)
    ensures From(TreeSlots(t, at), at) && (if Takes(t) then TreeSlots(t, at) != [] && TreeSlots(t, at)[0].0 == at
                                           else TreeSlots(t, at) == [] && Advance(t) == 0)
    decreases t
  {
    match t
    case Last(_) =>
    case Over(w, input) => TreeStart(input, at + w);
    case Both(lhs, rhs) => TreeStart(lhs, at); TreeStart(rhs, at + Advance(lhs));
  }

  lemma AppendApart(a: Slots, b: Slots, mid: nat, end: nat)
    requires From(b, mid) && if b == [] then end == mid else b[0].0 == mid <= end
    ensures Apart(a + b) <==> Apart(a) && Apart(b) && (b != [] ==> UpTo(a, mid))
    ensures Apart(a + b) && UpTo(a + b, end) <==> Apart(a) && UpTo(a, mid) && Apart(b) && UpTo(b, end)
  {
    var s := a + b;
    assert forall i :: 0 <= i < |a| ==> s[i] == a[i];
    assert forall i :: 0 <= i < |b| ==> s[|a| + i] == b[i];
    if b == [] {
      assert s == a;
    } else if Apart(s) {
      assert forall i :: 0 <= i < |a| ==> s[i].0 + s[i].1 <= s[|a|].0;
    }
  }

  /** Numbering any tree of operators, with create operators or without: no two operators share a slot if and
      only if an operator without an input takes no slot, or none after it does. */
  lemma {:induction false} TreesApartIff(t: Ops, at: nat)
    ensures Apart(TreeSlots(t, at)) <==> Handed(t, false)
    ensures Apart(TreeSlots(t, at)) && UpTo(TreeSlots(t, at), at + Advance(t)) <==> Handed(t, true)
    decreases t
  {
    hide Apart, UpTo, TreeSlots, Takes;
    match t
    case Last(w) => LastApart(w, at);
    case Over(w, input) => TreesApartIff(input, at + w); OverApart(w, input, at, at + w, at + Advance(t));
    case Both(lhs, rhs) =>
      TreesApartIff(lhs, at);
      TreesApartIff(rhs, at + Advance(lhs));
      BothApart(lhs, rhs, at, at + Advance(lhs), at + Advance(t));
  }

  lemma LastApart(w: nat, at: nat)
    ensures var s := TreeSlots(Last(w), at); Apart(s) && (UpTo(s, at) <==> w == 0)
  {
    assert w > 0 ==> Own(w, at)[0].0 + Own(w, at)[0].1 > at;
  }

  lemma OverApart(w: nat, input: Ops, at: nat, mid: nat, end: nat)
    requires mid == at + w && end == mid + Advance(input)
    requires var s := TreeSlots(input, mid);
             (Apart(s) <==> Handed(input, false)) && (Apart(s) && UpTo(s, end) <==> Handed(input, true))
    ensures var s, t := TreeSlots(Over(w, input), at), Over(w, input);
            (Apart(s) <==> Handed(t, false)) && (Apart(s) && UpTo(s, end) <==> Handed(t, true))
  {
    hide Apart, UpTo, Own, From, TreeSlots, Advance, Takes, Handed;
    TreeStart(input, mid);
    AppendApart(Own(w, at), TreeSlots(input, mid), mid, end);
    OwnApart(w, at);
    Unfolded(Over(w, input), at);
  }

  lemma OwnApart(w: nat, at: nat)
    ensures Apart(Own(w, at)) && UpTo(Own(w, at), at + w)
  {
  }

  lemma Unfolded(t: Ops, at: nat)
    ensures t.Over? ==> TreeSlots(t, at) == Own(t.width, at) + TreeSlots(t.input, at + t.width)
    ensures t.Both? ==> TreeSlots(t, at) == TreeSlots(t.lhs, at) + TreeSlots(t.rhs, at + Advance(t.lhs))
    ensures t.Over? ==> forall f :: Handed(t, f) == Handed(t.input, f)
    ensures t.Both? ==> forall f :: Handed(t, f) == (Handed(t.lhs, f || Takes(t.rhs)) && Handed(t.rhs, f))
  {
  }

  lemma BothApart(lhs: Ops, rhs: Ops, at: nat, mid: nat, end: nat)
    requires mid == at + Advance(lhs) && end == mid + Advance(rhs)
    requires var s := TreeSlots(lhs, at);
             (Apart(s) <==> Handed(lhs, false)) && (Apart(s) && UpTo(s, mid) <==> Handed(lhs, true))
    requires var s := TreeSlots(rhs, mid);
             (Apart(s) <==> Handed(rhs, false)) && (Apart(s) && UpTo(s, end) <==> Handed(rhs, true))
    ensures var s, t := TreeSlots(Both(lhs, rhs), at), Both(lhs, rhs);
            (Apart(s) <==> Handed(t, false)) && (Apart(s) && UpTo(s, end) <==> Handed(t, true))
  {
    hide Apart, UpTo, From, TreeSlots, Advance, Takes, Handed;
    TreeStart(rhs, mid);
    AppendApart(TreeSlots(lhs, at), TreeSlots(rhs, mid), mid, end);
    Unfolded(Both(lhs, rhs), at);
  }

  function RestTree(r: Rest): Ops {
    match r
    case Collect => Last(0)
    case End => Last(0)
    case Join(_, lhs, rhs) => Both(RestTree(lhs), PlanTree(rhs))
    case _ => Over(Width(r), RestTree(r.next))
  }

  function PlanTree(p: Plan): Ops {
    Over(ScanWidth(p.scan), RestTree(p.rest))
  }

  // The plans of this model are the trees that end in operators without slots.
  lemma {:induction false} RestIsTree(r: Rest, at: nat)
    ensures RestSlots(r, at) == TreeSlots(RestTree(r), at) && TotalRest(r) == Advance(RestTree(r))
    decreases r
  {
    match r
    case Collect =>
    case End =>
    case Join(_, lhs, rhs) => RestIsTree(lhs, at); PlanIsTree(rhs, at + TotalRest(lhs));
    case _ => RestIsTree(r.next, at + Width(r));
  }

  lemma {:induction false} RestHanded(r: Rest, followed: bool)
    ensures Handed(RestTree(r), followed)
    decreases r
  {
    match r
    case Collect =>
    case End =>
    case Join(_, lhs, rhs) => RestHanded(lhs, followed || Takes(PlanTree(rhs))); RestHanded(rhs.rest, followed);
    case _ => RestHanded(r.next, followed);
  }

  lemma {:induction false} PlanIsTree(p: Plan, at: nat)
    ensures PlanSlots(p, at) == TreeSlots(PlanTree(p), at) && TotalPlan(p) == Advance(PlanTree(p))
    ensures Handed(PlanTree(p), true)
    decreases p
  {
    RestIsTree(p.rest, at + ScanWidth(p.scan));
    RestHanded(p.rest, true);
  }

  // A failing input: a create at the end of a join's own pipeline. The second input is numbered from the same slot.
  lemma CreateOverlaps(scan: nat)
    requires scan > 0
    ensures !Apart(TreeSlots(Over(1, Both(Last(2), Over(scan, Last(0)))), 1))
  {
    var second := Over(scan, Last(0));
    TreesApartIff(Over(1, Both(Last(2), second)), 1);
    assert Takes(second) && !Handed(Last(2), true);
  }
}
