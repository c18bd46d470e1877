/** Filter expressions of several comparisons: the visitor finds the operands of AND and OR on the stack
    of what it has visited, by position. */
module FilterStack {
  import opened Storage

  datatype FopType = IntToken | KeyToken | Op | BoolOp
  datatype Conn = AndC | OrC

  datatype Expr =
    | Key(qr: nat, name: string)
    | Num(value: int)
    | EqP(left: Expr, right: Expr)
    | Both(conn: Conn, left: Expr, right: Expr)

  function TypeOf(e: Expr): FopType {
    match e
    case Key(_, _) => KeyToken
    case Num(_) => IntToken
    case EqP(_, _) => Op
    case Both(_, _, _) => BoolOp
  }

  // A comparison of a property with a number.
  predicate IsComparison(e: Expr) {
    e.EqP? && e.left.Key? && e.right.Num?
  }

  // A filter: comparisons joined by AND and OR.
  predicate IsFilter(e: Expr) {
    IsComparison(e) || (e.Both? && IsFilter(e.left) && IsFilter(e.right))
  }

  // Every right operand of AND and OR is a comparison.
  predicate LeftDeep(e: Expr) {
    e.Both? ==> IsComparison(e.right) && LeftDeep(e.left)
  }

  // ----- numbers, stack and code -----

  // How many expressions there are; they are numbered in the order of their visits.
  function Size(e: Expr): nat {
    match e
    case Key(_, _) => 1
    case Num(_) => 1
    case EqP(l, r) => Size(l) + Size(r) + 1
    case Both(_, l, r) => Size(l) + Size(r) + 1
  }

  // The number of an expression whose first part has number `at`.
  function Root(e: Expr, at: nat): nat {
    at + Size(e) - 1
  }

  datatype Entry = Entry(opd: nat, ftype: FopType)

  // What visiting an expression puts on the stack: the reversed postorder.
  function Visited(e: Expr, at: nat): seq<Entry> {
    match e
    case Key(_, _) => [Entry(at, KeyToken)]
    case Num(_) => [Entry(at, IntToken)]
    case EqP(l, r) => [Entry(Root(e, at), Op)] + Visited(r, at + Size(l)) + Visited(l, at)
    case Both(_, l, r) => [Entry(Root(e, at), BoolOp)] + Visited(r, at + Size(l)) + Visited(l, at)
  }

  // The code, with operands named by their numbers. A search that finds nothing rejects at once.
  datatype Step =
    | Search(opd: nat, qr: nat, name: string)
    | Const(opd: nat, value: int)
    | Compare(opd: nat, lhs: nat, rhs: nat)
    | Combine(opd: nat, conn: Conn, lhs: nat, rhs: nat)
    | Branch(opd: nat)

  function Final(rank: nat, opd: nat): seq<Step> {
    if rank == 0 then [Branch(opd)] else []
  }

  // The instruction of an operator, on its own operands.
  function Operator(e: Expr, at: nat): Step
    requires e.EqP? || e.Both?
  {
    var l, r := Root(e.left, at), Root(e.right, at + Size(e.left));
    if e.EqP? then Compare(Root(e, at), l, r) else Combine(Root(e, at), e.conn, l, r)
  }

  // The code that takes each operator's own operands.
  function CodeOf(e: Expr, at: nat, rank: nat): seq<Step> {
    if e.Key? then [Search(at, e.qr, e.name)]
    else if e.Num? then [Const(at, e.value)]
    else
      CodeOf(e.left, at, rank + 1) + CodeOf(e.right, at + Size(e.left), rank + 1) + [Operator(e, at)]
        + Final(rank, Root(e, at))
  }

  // ----- where the operands lie -----

  lemma {:induction false} VisitedShape(e: Expr, at: nat)
    ensures |Visited(e, at)| == Size(e) && Visited(e, at)[0] == Entry(Root(e, at), TypeOf(e))
    decreases e
  {
    if e.EqP? || e.Both? {
      VisitedShape(e.left, at);
      VisitedShape(e.right, at + Size(e.left));
    }
  }

  /** When an operator is visited, its right operand is on top of the stack, and its left operand behind
      all of the right one. */
  lemma OperandsOnStack(e: Expr, at: nat, below: seq<Entry>)
    requires e.EqP? || e.Both?
    ensures var s := Visited(e.right, at + Size(e.left)) + (Visited(e.left, at) + below);
            && |s| > Size(e.right)
            && s[0] == Entry(Root(e.right, at + Size(e.left)), TypeOf(e.right))
            && s[Size(e.right)] == Entry(Root(e.left, at), TypeOf(e.left))
            && Visited(e, at) + below == [Entry(Root(e, at), TypeOf(e))] + s
  {
    VisitedShape(e.left, at);
    VisitedShape(e.right, at + Size(e.left));
  }

  // The code of an operator follows that of its operands.
  lemma CodeInOrder(e: Expr, at: nat, rank: nat, before: seq<Step>)
    requires e.EqP? || e.Both?
    ensures before + CodeOf(e, at, rank)
            == before + CodeOf(e.left, at, rank + 1) + CodeOf(e.right, at + Size(e.left), rank + 1) + [Operator(e, at)]
              + Final(rank, Root(e, at))
  {
  }

  // The index is four exactly for a comparison.
  lemma {:induction false} ThreeIffComparison(e: Expr)
    requires IsFilter(e)
    ensures Size(e) >= 3 && (Size(e) == 3 <==> IsComparison(e))
    decreases e
  {
    if e.Both? {
      ThreeIffComparison(e.left);
      ThreeIffComparison(e.right);
    }
  }

  function Pow2(n: nat): nat {
    if n == 0 then 1 else 2 * Pow2(n - 1)
  }

  // ----- the visitor -----

  class FepVisitor {
    var opdCnt: nat
    var exprStack: seq<Entry>
    var code: seq<Step>

    constructor ()
      ensures opdCnt == 0 && exprStack == [] && code == []
    {
      opdCnt, exprStack, code := 0, [], [];
    }

    // The walk over boolean operators goes towards the top of the stack; None says it has left it.
    method Offset() returns (offset: Option<nat>)
      requires |exprStack| > 1 && exprStack[0].ftype == BoolOp
      ensures offset == if exprStack[1].ftype == BoolOp then None else Some(0)
    {
      var n: nat, cit := 0, 1;
      while cit >= 0 && exprStack[cit].ftype == BoolOp
        invariant -1 <= cit <= 1 && n == 1 - cit
        invariant cit < 1 ==> exprStack[1].ftype == BoolOp
        decreases cit
      {
        n, cit := n + 1, cit - 1;
      }
      offset := if cit < 0 then None else Some(n);
    }

    method VisitToken(e: Expr)
      requires e.Key? || e.Num?
      modifies this
      ensures exprStack == Visited(e, old(opdCnt)) + old(exprStack) && opdCnt == old(opdCnt) + 1
      ensures code == old(code) + CodeOf(e, old(opdCnt), 1)
    {
      exprStack := [Entry(opdCnt, TypeOf(e))] + exprStack;
      code := code + [if e.Key? then Search(opdCnt, e.qr, e.name) else Const(opdCnt, e.value)];
      opdCnt := opdCnt + 1;
    }

    // Operands of a comparison: indices 1 and 2.
    method VisitEq(rank: nat)
      requires |exprStack| >= 2
      modifies this
      ensures exprStack == [Entry(old(opdCnt), Op)] + old(exprStack) && opdCnt == old(opdCnt) + 1
      ensures code == old(code) + [Compare(old(opdCnt), old(exprStack)[1].opd, old(exprStack)[0].opd)]
              + Final(rank, old(opdCnt))
    {
      exprStack := [Entry(opdCnt, Op)] + exprStack;
      code := code + [Compare(opdCnt, exprStack[2].opd, exprStack[1].opd)];
      if rank == 0 {
        code := code + [Branch(opdCnt)];
      }
      opdCnt := opdCnt + 1;
    }

    // Operands of AND and OR: index 1, and the index computed from the walk.
    method VisitBool(rank: nat, conn: Conn) returns (ok: bool)
      requires |exprStack| >= 4
      modifies this
      ensures ok <==> old(exprStack)[0].ftype != BoolOp
      ensures ok ==> exprStack == [Entry(old(opdCnt), BoolOp)] + old(exprStack) && opdCnt == old(opdCnt) + 1
      ensures ok ==>
                code == old(code) + [Combine(old(opdCnt), conn, old(exprStack)[3].opd, old(exprStack)[0].opd)]
                        + Final(rank, old(opdCnt))
    {
      exprStack := [Entry(opdCnt, BoolOp)] + exprStack;
      var offset := Offset();
      ok := offset.Some?;
      if ok {
        var pos := Pow2(2 + offset.value);
        assert pos == 4;
        code := code + [Combine(opdCnt, conn, exprStack[pos].opd, exprStack[1].opd)];
        if rank == 0 {
          code := code + [Branch(opdCnt)];
        }
        opdCnt := opdCnt + 1;
      }
    }

    /** The traversal: left operand, right operand, then the operator. It stays on its stack, and every
        operator finds its own operands, if and only if no right operand is itself an AND or OR. */
    method Accept(rank: nat, e: Expr) returns (ok: bool)
      requires IsFilter(e)
      modifies this
      ensures ok <==> LeftDeep(e)
      ensures ok ==> exprStack == Visited(e, old(opdCnt)) + old(exprStack) && opdCnt == old(opdCnt) + Size(e)
      ensures ok ==> code == old(code) + CodeOf(e, old(opdCnt), rank)
      decreases e, 1
    {
      if e.EqP? {
        AcceptComparison(rank, e);
        ok := true;
      } else {
        ok := AcceptBoth(rank, e);
      }
    }

    method AcceptComparison(rank: nat, e: Expr)
      requires IsComparison(e)
      modifies this
      ensures exprStack == Visited(e, old(opdCnt)) + old(exprStack) && opdCnt == old(opdCnt) + Size(e)
      ensures code == old(code) + CodeOf(e, old(opdCnt), rank)
    {
      OperandsOnStack(e, opdCnt, exprStack);
      CodeInOrder(e, opdCnt, rank, code);
      VisitToken(e.left);
      VisitToken(e.right);
      VisitEq(rank);
    }

    method AcceptBoth(rank: nat, e: Expr) returns (ok: bool)
      requires IsFilter(e) && e.Both?
      modifies this
      ensures ok <==> LeftDeep(e)
      ensures ok ==> exprStack == Visited(e, old(opdCnt)) + old(exprStack) && opdCnt == old(opdCnt) + Size(e)
      ensures ok ==> code == old(code) + CodeOf(e, old(opdCnt), rank)
      decreases e, 0
    {
      hide Visited, CodeOf, Final;
      OperandsOnStack(e, opdCnt, exprStack);
      CodeInOrder(e, opdCnt, rank, code);
      ThreeIffComparison(e.right);
      ok := Accept(rank + 1, e.left);
      if ok {
        ok := Accept(rank + 1, e.right);
        if ok {
          ok := VisitBool(rank, e.conn);
        }
      }
    }
  }

  // ----- what the code decides -----

  // What the search with a number finds under a name in the object in a register; None if it is missing.
  type Found = (nat, nat, string) -> Option<int>

  datatype Verdict = Going(vals: map<nat, int>) | Passed | Rejected

  function ValueAt(vals: map<nat, int>, i: nat): int {
    if i in vals then vals[i] else 0
  }

  function Truth(b: bool): int {
    if b then 1 else 0
  }

  function RunStep(s: Step, found: Found, vals: map<nat, int>): Verdict {
    match s
    case Search(i, qr, name) =>
      (match found(i, qr, name) case None => Rejected case Some(v) => Going(vals[i := v]))
    case Const(i, v) => Going(vals[i := v])
    case Compare(i, l, r) => Going(vals[i := Truth(ValueAt(vals, l) == ValueAt(vals, r))])
    case Combine(i, c, l, r) =>
      Going(vals[i := if c == AndC then Truth(ValueAt(vals, l) != 0 && ValueAt(vals, r) != 0)
                      else Truth(ValueAt(vals, l) != 0 || ValueAt(vals, r) != 0)])
    case Branch(i) => if ValueAt(vals, i) != 0 then Passed else Rejected
  }

  function RunSteps(code: seq<Step>, found: Found, v: Verdict): Verdict
    decreases |code|
  {
    if code == [] || !v.Going? then v else RunSteps(code[1..], found, RunStep(code[0], found, v.vals))
  }

  // Every property the expression asks for is there.
  predicate AllFound(e: Expr, at: nat, found: Found) {
    match e
    case Key(qr, name) => found(at, qr, name).Some?
    case Num(_) => true
    case EqP(l, r) => AllFound(l, at, found) && AllFound(r, at + Size(l), found)
    case Both(_, l, r) => AllFound(l, at, found) && AllFound(r, at + Size(l), found)
  }

  /** The meaning of a filter, in its own terms: a comparison holds if the property with the key's name is the
      number. */
  predicate Holds(e: Expr, at: nat, found: Found)
    requires IsFilter(e)
  {
    match e
    case EqP(l, r) => found(at, l.qr, l.name) == Some(r.value)
    case Both(AndC, l, r) => Holds(l, at, found) && Holds(r, at + Size(l), found)
    case Both(OrC, l, r) => Holds(l, at, found) || Holds(r, at + Size(l), found)
  }

  // The value that an expression leaves under its number, given what its searches found.
  function Meaning(e: Expr, at: nat, found: Found): int {
    match e
    case Key(qr, name) => (match found(at, qr, name) case Some(v) => v case None => 0)
    case Num(v) => v
    case EqP(l, r) => Truth(Meaning(l, at, found) == Meaning(r, at + Size(l), found))
    case Both(c, l, r) =>
      var a, b := Meaning(l, at, found) != 0, Meaning(r, at + Size(l), found) != 0;
      Truth(if c == AndC then a && b else a || b)
  }

  lemma {:induction false} MeaningHolds(e: Expr, at: nat, found: Found)
    requires IsFilter(e) && AllFound(e, at, found)
    ensures Meaning(e, at, found) != 0 <==> Holds(e, at, found)
    decreases e
  {
    if e.Both? {
      MeaningHolds(e.left, at, found);
      MeaningHolds(e.right, at + Size(e.left), found);
    } else {
      assert Meaning(e.left, at, found) == found(at, e.left.qr, e.left.name).value;
    }
  }

  lemma {:induction false} RunAppend(a: seq<Step>, b: seq<Step>, found: Found, v: Verdict)
    ensures RunSteps(a + b, found, v) == RunSteps(b, found, RunSteps(a, found, v))
    decreases |a|
  {
    if a == [] {
      assert a + b == b;
    } else if v.Going? {
      assert (a + b)[1..] == a[1..] + b;
      RunAppend(a[1..], b, found, RunStep(a[0], found, v.vals));
    } else {
      assert RunSteps(b, found, v) == v;
    }
  }

  // What running an operand leaves: its value under its number, and everything below untouched.
  ghost predicate Leaves(e: Expr, at: nat, found: Found, vals: map<nat, int>, v: Verdict) {
    if AllFound(e, at, found) then
      && v.Going? && Root(e, at) in v.vals && v.vals[Root(e, at)] == Meaning(e, at, found)
      && forall i :: i in vals && i < at ==> i in v.vals && v.vals[i] == vals[i]
    else v == Rejected
  }

  lemma SizePositive(e: Expr)
    ensures Size(e) > 0
  {
  }

  // The operator's own instruction, once its operands have run.
  lemma OperatorRuns(e: Expr, at: nat, found: Found, v: Verdict)
    requires (e.EqP? || e.Both?) && v.Going?
    requires var i, j := Root(e.left, at), Root(e.right, at + Size(e.left));
             i in v.vals && v.vals[i] == Meaning(e.left, at, found) && j in v.vals
               && v.vals[j] == Meaning(e.right, at + Size(e.left), found)
    ensures RunSteps([Operator(e, at)], found, v) == Going(v.vals[Root(e, at) := Meaning(e, at, found)])
  {
    assert [Operator(e, at)][1..] == [];
  }

  lemma {:induction false} OperandRuns(e: Expr, at: nat, rank: nat, found: Found, vals: map<nat, int>)
    requires rank > 0
    ensures Leaves(e, at, found, vals, RunSteps(CodeOf(e, at, rank), found, Going(vals)))
    decreases e
  {
    if e.EqP? || e.Both? {
      hide RunStep, Meaning, Size;
      var l, r := CodeOf(e.left, at, rank + 1), CodeOf(e.right, at + Size(e.left), rank + 1);
      assert CodeOf(e, at, rank) == l + r + [Operator(e, at)];
      OperandsRun(e, at, rank, found, vals);
      RunAppend(l + r, [Operator(e, at)], found, Going(vals));
      RootLater(e, at);
      var v := RunSteps(l + r, found, Going(vals));
      if v.Going? {
        OperatorRuns(e, at, found, v);
      }
    }
  }

  lemma RootLater(e: Expr, at: nat)
    ensures Root(e, at) >= at
  {
  }

  // Both operands one after the other.
  lemma {:induction false} OperandsRun(e: Expr, at: nat, rank: nat, found: Found, vals: map<nat, int>)
    requires e.EqP? || e.Both?
    ensures var v := RunSteps(CodeOf(e.left, at, rank + 1) + CodeOf(e.right, at + Size(e.left), rank + 1), found,
                              Going(vals));
            var i, j := Root(e.left, at), Root(e.right, at + Size(e.left));
            if AllFound(e, at, found) then
              && v.Going? && i in v.vals && v.vals[i] == Meaning(e.left, at, found)
              && j in v.vals && v.vals[j] == Meaning(e.right, at + Size(e.left), found)
              && forall k :: k in vals && k < at ==> k in v.vals && v.vals[k] == vals[k]
            else v == Rejected
    decreases e, 0
  {
    hide RunStep, Meaning, CodeOf, Size;
    SizePositive(e.left);
    var l, r := CodeOf(e.left, at, rank + 1), CodeOf(e.right, at + Size(e.left), rank + 1);
    OperandRuns(e.left, at, rank + 1, found, vals);
    RunAppend(l, r, found, Going(vals));
    var v := RunSteps(l, found, Going(vals));
    if v.Going? {
      OperandRuns(e.right, at + Size(e.left), rank + 1, found, v.vals);
    }
  }

  /** The final branch: a filter passes if and only if every property it asks for is there and it holds. */
  lemma FilterDecides(e: Expr, found: Found)
    requires IsFilter(e)
    ensures RunSteps(CodeOf(e, 0, 0), found, Going(map[])) ==
            if AllFound(e, 0, found) && Holds(e, 0, found) then Passed else Rejected
  {
    hide CodeOf, RunSteps, Meaning, Holds;
    Decision(e, found);
    if AllFound(e, 0, found) {
      MeaningHolds(e, 0, found);
    }
  }

  lemma {:induction false} SearchesFind(e: Expr, at: nat, rank: nat, found: Found)
    requires AllFound(e, at, found)
    ensures forall s :: s in CodeOf(e, at, rank) && s.Search? ==> found(s.opd, s.qr, s.name).Some?
    decreases e
  {
    if e.EqP? || e.Both? {
      SearchesFind(e.left, at, rank + 1, found);
      SearchesFind(e.right, at + Size(e.left), rank + 1, found);
    }
  }

  /** A single search that finds nothing rejects, even under an OR whose other side holds. */
  lemma MissingRejects(e: Expr, found: Found, s: Step)
    requires IsFilter(e) && s in CodeOf(e, 0, 0) && s.Search? && found(s.opd, s.qr, s.name) == None
    ensures RunSteps(CodeOf(e, 0, 0), found, Going(map[])) == Rejected
  {
    hide CodeOf, RunSteps, Holds;
    FilterDecides(e, found);
    if AllFound(e, 0, found) {
      SearchesFind(e, 0, 0, found);
    }
  }

  // One comparison after the other, as they are written.
  datatype Comparison = Comparison(conn: Conn, qr: nat, name: string, value: int)

  function Chain(cs: seq<Comparison>): Expr
    requires cs != []
  {
    var c := cs[|cs| - 1];
    var own := EqP(Key(c.qr, c.name), Num(c.value));
    if |cs| == 1 then own else Both(c.conn, Chain(cs[..|cs| - 1]), own)
  }

  /** Every chain of comparisons is a filter that is compiled. */
  lemma {:induction false} ChainsCompile(cs: seq<Comparison>)
    requires cs != []
    ensures IsFilter(Chain(cs)) && LeftDeep(Chain(cs))
    decreases |cs|
  {
    if |cs| > 1 {
      ChainsCompile(cs[..|cs| - 1]);
    }
  }

  lemma Decision(e: Expr, found: Found)
    requires IsFilter(e)
    ensures RunSteps(CodeOf(e, 0, 0), found, Going(map[])) ==
            if AllFound(e, 0, found) && Meaning(e, 0, found) != 0 then Passed else Rejected
  {
    hide RunStep, Meaning, Size;
    var l, r, own, last := CodeOf(e.left, 0, 1), CodeOf(e.right, 0 + Size(e.left), 1), [Operator(e, 0)], [Branch(Root(e,
        0))];
    assert CodeOf(e, 0, 0) == l + r + own + last;
    OperandsRun(e, 0, 0, found, map[]);
    RunAppend(l + r, own, found, Going(map[]));
    RunAppend(l + r + own, last, found, Going(map[]));
    var v := RunSteps(l + r, found, Going(map[]));
    if v.Going? {
      OperatorRuns(e, 0, found, v);
      LastBranch(Root(e, 0), found, v.vals[Root(e, 0) := Meaning(e, 0, found)]);
    }
  }

  lemma LastBranch(i: nat, found: Found, vals: map<nat, int>)
    requires i in vals
    ensures RunSteps([Branch(i)], found, Going(vals)) == if vals[i] != 0 then Passed else Rejected
  {
    assert [Branch(i)][1..] == [];
  }

  /** A whole filter: it is compiled if and only if it is left-deep, and then it decides as it should. */
  method CompileFilter(e: Expr) returns (code: seq<Step>, ok: bool)
    requires IsFilter(e)
    ensures ok <==> LeftDeep(e)
    ensures ok ==> forall found: Found :: RunSteps(code, found, Going(map[])) ==
                     if AllFound(e, 0, found) && Holds(e, 0, found) then Passed else Rejected
  {
    var v := new FepVisitor();
    ok := v.Accept(0, e);
    code := v.code;
    if ok {
      assert code == CodeOf(e, 0, 0);
      forall found: Found
        ensures RunSteps(code, found, Going(map[])) ==
                if AllFound(e, 0, found) && Holds(e, 0, found) then Passed else Rejected
      {
        FilterDecides(e, found);
      }
    }
  }
}
