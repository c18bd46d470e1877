/** A small-step machine for the emitted blocks. Reading a register or a cell that was never
    written, a value of another kind, a block that does not exist or one without a terminator
    all make it stuck. */
module Machine {
  import opened Storage
  import opened Ir
  import opened Runtime

  // One entry of the query argument array.
  datatype Arg = LabelArg(label_: string) | ValueArg(v: nat) | NoArg
  const MAX_ARGS: nat := 64
  // The size of a join input is passed as a 32-bit int.
  const MAX_ROWS: nat := 0x8000_0000

  // `finish` is the finish function of the query: the identity, or the sort.
  datatype World = World(g: Graph, args: seq<Arg>, finish: seq<Row> -> seq<Row>)
  datatype Prog = Prog(blocks: map<BlockId, Block>, w: World)

  datatype State = State(regs: map<Reg, Val>, cells: map<Cell, Val>, rt: Rt)

  datatype Res = Ok(s: State) | Raise(s: State) | Bad

  function Set(s: State, d: Reg, v: Val): State {
    s.(regs := s.regs[d := v])
  }

  function Bit(b: bool): Val {
    IntV(if b then 1 else 0)
  }

  function NodeAt(n: NodeRec, f: nat): Option<nat> {
    match f
    case 1 => Some(n.id)
    case 2 => Some(n.fromRships)
    case 3 => Some(n.toRships)
    case 4 => Some(n.props)
    case 5 => Some(n.labelCode)
    case _ => None
  }

  function RshipAt(r: RshipRec, f: nat): Option<nat> {
    match f
    case 1 => Some(r.id)
    case 2 => Some(r.src)
    case 3 => Some(r.dst)
    case 4 => Some(r.nextSrc)
    case 5 => Some(r.nextDst)
    case 6 => Some(r.props)
    case 7 => Some(r.labelCode)
    case _ => None
  }

  function Word(n: Option<nat>): Val {
    match n case Some(v) => IntV(v) case None => Undef
  }

  function RegVal(s: State, r: Reg): Val {
    if r in s.regs then s.regs[r] else Undef
  }

  function CellVal(s: State, c: Cell): Val {
    if c in s.cells then s.cells[c] else Undef
  }

  // The value of an operand; Undef if it has none.
  function OpVal(w: World, o: Opnd, s: State): Val {
    match o
    case K(n) => IntV(n)
    case R(r) => RegVal(s, r)
    case L(c) => CellVal(s, c)
    case NodeF(r, f) => if RegVal(s, r).NodeV? then Word(NodeAt(w.g.node(RegVal(s, r).p), f)) else Undef
    case RshipF(r, f) => if RegVal(s, r).RshipV? then Word(RshipAt(w.g.rship(RegVal(s, r).id), f)) else Undef
    case NextSet(r) => if RegVal(s, r).PsetV? then IntV(w.g.pset(RegVal(s, r).ps).next) else Undef
    case ItemKey(r) => if RegVal(s, r).ItemV? then IntV(RegVal(s, r).item.key) else Undef
    case ItemValue(r) => if RegVal(s, r).ItemV? then IntV(RegVal(s, r).item.value) else Undef
    case Succ(r) => if RegVal(s, r).IntV? then IntV((RegVal(s, r).n + 1) % TWO_64) else Undef
  }

  function LocVal(loc: Loc, s: State): Val {
    match loc case InReg(r) => RegVal(s, r) case InCell(c) => CellVal(s, c)
  }

  function ArgAt(w: World, slot: nat): Arg {
    if slot < |w.args| && slot < MAX_ARGS then w.args[slot] else NoArg
  }

  function Project(w: World, i: Instr, s: State): Res
    requires i.ApplyPexpr?
  {
    var v := RegVal(s, i.r);
    if (i.isNode && !v.NodeV?) || (!i.isNode && !v.RshipV?) then Bad
    else
      match if i.isNode then ApplyNode(w.g, s.rt, i.key, i.ftype, v.p) else ApplyRship(w.g, s.rt, i.key, i.ftype, v.id)
      case Wrote(rt, x) => Ok(s.(rt := rt, cells := s.cells[i.c := x]))
      case NoWrite(rt) => Ok(s.(rt := rt))
      case Threw(rt) => Raise(s.(rt := rt))
  }

  function ItVal(s: State, r: Reg): Option<nat> {
    if RegVal(s, r).ItV? && RegVal(s, r).it < |s.rt.iters| then Some(s.rt.iters[RegVal(s, r).it]) else None
  }

  // An element of the materialized tuple a register points to.
  function TupleElem(s: State, tp: Reg, i: nat): Val {
    var v := RegVal(s, tp);
    if v.TupV? && v.idx < |RhsAt(s.rt, v.jid)| && i < |RhsAt(s.rt, v.jid)[v.idx]| then RhsAt(s.rt, v.jid)[v.idx][i]
    else Undef
  }

  function Pointer(p: Option<nat>): Val {
    match p case Some(n) => NodeV(n) case None => NullV
  }

  // Calls into the runtime.
  function Call(w: World, i: Instr, s: State): Res {
    match i
    case LookupLabel(d, slot) =>
      (match ArgAt(w, slot) case LabelArg(l) => Ok(Set(s, d, IntV(w.g.code(l)))) case _ => Bad)
    case LoadArg(d, slot) =>
      (match ArgAt(w, slot) case ValueArg(v) => Ok(Set(s, d, IntV(v))) case _ => Bad)
    case VecBegin(d) => Ok(Set(s, d, ItV(|s.rt.iters|)).(rt := s.rt.(iters := s.rt.iters + [0])))
    case VecNext(r) =>
      if ItVal(s, r).Some? then
        Ok(s.(rt := s.rt.(iters := s.rt.iters[RegVal(s, r).it := ItVal(s, r).value + 1])))
      else Bad
    case VecEnd(d, r) =>
      if ItVal(s, r).Some? then Ok(Set(s, d, Bit(ItVal(s, r).value >= |w.g.nodes|))) else Bad
    case NodeFromIt(d, r) =>
      if ItVal(s, r).Some? && ItVal(s, r).value < |w.g.nodes| then Ok(Set(s, d, NodeV(w.g.nodes[ItVal(s, r).value])))
        else Bad
    case ValidNode(d, r) => if RegVal(s, r).NodeV? then Ok(Set(s, d, NodeV(w.g.valid(RegVal(s, r).p)))) else Bad
    case IndexGet(d, slot) =>
      (match (ArgAt(w, slot), ArgAt(w, slot + 1), ArgAt(w, slot + 2))
       case (LabelArg(l), LabelArg(k), ValueArg(v)) => Ok(Set(s, d, Pointer(w.g.index(l, k, v))))
       case _ => Bad)
    case NodeById(d, o) =>
      var v := OpVal(w, o, s);
      if v.IntV? then Ok(Set(s, d, Pointer(w.g.nodeById(v.n)))) else Bad
    case RshipById(d, o) =>
      var v := OpVal(w, o, s);
      if v.IntV? && v.n < INT64_MAX then Ok(Set(s, d, RshipV(v.n))) else Bad
    case PsetAt(d, o) =>
      var v := OpVal(w, o, s);
      if v.IntV? && v.n < INT64_MAX then Ok(Set(s, d, PsetV(v.n))) else Bad
    case FevRetrieve(node, code, min, max) =>
      if RegVal(s, node).NodeV? && RegVal(s, code).IntV? then
        Ok(s.(rt := FevGather(w.g, s.rt, RegVal(s, node).p, RegVal(s, code).n, min, max)))
      else Bad
    case FevEnd(d) => var (e, rt) := FevDone(s.rt); Ok(Set(s, d, Bit(e)).(rt := rt))
    case FevNext(d) =>
      if s.rt.fevPos < |s.rt.fevList| then
        Ok(Set(s, d, RshipV(s.rt.fevList[s.rt.fevPos])).(rt := s.rt.(fevPos := s.rt.fevPos + 1)))
      else Bad
    case JoinSize(d, jid) =>
      if |RhsAt(s.rt, jid)| < MAX_ROWS then Ok(Set(s, d, IntV(|RhsAt(s.rt, jid)|))) else Bad
    case JoinTpAt(d, jid, o) =>
      var v := OpVal(w, o, s);
      if v.IntV? && v.n < |RhsAt(s.rt, jid)| then Ok(Set(s, d, TupV(jid, v.n))) else Bad
    case NodeResAt(d, tp, i) =>
      if TupleElem(s, tp, i).NodeV? then Ok(Set(s, d, TupleElem(s, tp, i))) else Bad
    case RshipResAt(d, tp, i) =>
      if TupleElem(s, tp, i).RshipV? then Ok(Set(s, d, TupleElem(s, tp, i))) else Bad
    case MatReg(loc, ty) =>
      (match Convert(w.g, s.rt, LocVal(loc, s), ty)
       case None => Bad
       case Some(o) => Ok(s.(rt := s.rt.(tp := s.rt.tp + [o]))))
    case CollectTuple => Ok(s.(rt := CollectTp(s.rt)))
    case MatNode(r) =>
      if RegVal(s, r).NodeV? then Ok(s.(rt := s.rt.(mat := s.rt.mat + [RegVal(s, r)]))) else Bad
    case MatRship(r) =>
      if RegVal(s, r).RshipV? then Ok(s.(rt := s.rt.(mat := s.rt.mat + [RegVal(s, r)]))) else Bad
    case CollectJoin(jid) => Ok(s.(rt := CollectJoinTp(s.rt, jid)))
    case Finish => Ok(s.(rt := s.rt.(rows := w.finish(s.rt.rows))))
    case _ => Bad
  }

  function Exec1(w: World, i: Instr, s: State): Res {
    match i
    case Alloca(c) => Ok(s.(cells := s.cells[c := Undef]))
    case Let(d, o) => if OpVal(w, o, s) == Undef then Bad else Ok(Set(s, d, OpVal(w, o, s)))
    case Store(o, c) => if OpVal(w, o, s) == Undef then Bad else Ok(s.(cells := s.cells[c := OpVal(w, o, s)]))
    case ItemAt(d, ps, o) =>
      var v := OpVal(w, o, s);
      if RegVal(s, ps).PsetV? && v.IntV? && v.n < |w.g.pset(RegVal(s, ps).ps).items| then
        Ok(Set(s, d, ItemV(w.g.pset(RegVal(s, ps).ps).items[v.n])))
      else Bad
    case ApplyPexpr(_, _, _, _, _) => Project(w, i, s)
    case _ => Call(w, i, s)
  }

  function Exec(w: World, c: Code, s: State): Res {
    match c
    case Nil => Ok(s)
    case Then(b, i) =>
      match Exec(w, b, s)
      case Ok(s1) => Exec1(w, i, s1)
      case bad => bad
  }

  // The verdict of a comparison, if both sides are words.
  function Verdict(w: World, t: Test, s: State): Option<bool> {
    match t
    case Eq(a, b) =>
      if OpVal(w, a, s).IntV? && OpVal(w, b, s).IntV? then Some(OpVal(w, a, s).n == OpVal(w, b, s).n) else None
    case Ult(a, b) =>
      if OpVal(w, a, s).IntV? && OpVal(w, b, s).IntV? then Some(OpVal(w, a, s).n < OpVal(w, b, s).n) else None
    case IsNull(r) =>
      if RegVal(s, r).NodeV? || RegVal(s, r).NullV? then Some(RegVal(s, r).NullV?) else None
  }

  lemma ExecOne(w: World, a: Instr, s: State, s1: State)
    requires Exec1(w, a, s) == Ok(s1)
    ensures Exec(w, Nil.Do(a), s) == Ok(s1)
  {
    hide Exec1;
  }

  lemma ExecTwo(w: World, a: Instr, b: Instr, s: State, s1: State, s2: State)
    requires Exec1(w, a, s) == Ok(s1) && Exec1(w, b, s1) == Ok(s2)
    ensures Exec(w, Nil.Do(a).Do(b), s) == Ok(s2)
  {
    hide Exec1;
    ExecOne(w, a, s, s1);
  }

  lemma ExecThen(w: World, c: Code, i: Instr, s: State, s1: State, s2: State)
    requires Exec(w, c, s) == Ok(s1) && Exec1(w, i, s1) == Ok(s2)
    ensures Exec(w, c.Do(i), s) == Ok(s2)
  {
    hide Exec1;
  }

  // Loading a counter, and storing it back one higher.
  lemma IncrExec(w: World, r: Reg, c: Cell, s: State, n: nat)
    requires CellVal(s, c) == IntV(n)
    ensures Exec(w, Nil.Do(Let(r, L(c))).Do(Store(Succ(r), c)), s) ==
            Ok(Set(s, r, IntV(n)).(cells := s.cells[c := IntV((n + 1) % TWO_64)]))
  {
    ExecTwo(w, Let(r, L(c)), Store(Succ(r), c), s, Set(s, r, IntV(n)),
            Set(s, r, IntV(n)).(cells := s.cells[c := IntV((n + 1) % TWO_64)]));
  }

  // Symbolic execution of straight-line code, to any length.
  lemma Unfold(w: World)
    ensures forall b, i, s: State {:trigger Exec(w, Then(b, i), s)} ::
              Exec(w, Then(b, i), s) == match Exec(w, b, s) case Ok(s1) => Exec1(w, i, s1) case bad => bad
    ensures forall s: State {:trigger Exec(w, Nil, s)} :: Exec(w, Nil, s) == Ok(s)
    ensures forall s: State, d, o {:trigger Exec1(w, Let(d, o), s)} :: OpVal(w, o, s) != Undef ==>
              Exec1(w, Let(d, o), s) == Ok(Set(s, d, OpVal(w, o, s)))
    ensures forall s: State, o, c {:trigger Exec1(w, Store(o, c), s)} :: OpVal(w, o, s) != Undef ==>
              Exec1(w, Store(o, c), s) == Ok(s.(cells := s.cells[c := OpVal(w, o, s)]))
    ensures forall s: State, d, slot {:trigger Exec1(w, LookupLabel(d, slot), s)} :: ArgAt(w, slot).LabelArg? ==>
              Exec1(w, LookupLabel(d, slot), s) == Ok(Set(s, d, IntV(w.g.code(ArgAt(w, slot).label_))))
    ensures forall s: State, d, o {:trigger Exec1(w, RshipById(d, o), s)} ::
              OpVal(w, o, s).IntV? && OpVal(w, o, s).n < INT64_MAX ==>
                Exec1(w, RshipById(d, o), s) == Ok(Set(s, d, RshipV(OpVal(w, o, s).n)))
  {
  }

  // ----- configurations and steps -----

  datatype Config = Run(bb: BlockId, pc: nat, s: State) | Done(s: State) | Thrown(s: State) | Stuck

  function Jump(w: World, t: Term, s: State): Config {
    match t
    case Br(b) => Run(b, 0, s)
    case CondBr(test, b0, b1) =>
      (match Verdict(w, test, s) case Some(v) => Run(if v then b0 else b1, 0, s) case None => Stuck)
    case Ret => Done(s)
  }

  function Step(p: Prog, c: Config): Config {
    match c
    case Run(bb, pc, s) =>
      if bb !in p.blocks then Stuck
      else
        var blk := p.blocks[bb];
        if pc < Len(blk.code) then
          match Exec1(p.w, At(blk.code, pc), s)
          case Ok(s1) => Run(bb, pc + 1, s1)
          case Raise(s1) => Thrown(s1)
          case Bad => Stuck
        else if pc == Len(blk.code) && blk.term.Some? then Jump(p.w, blk.term.value, s)
        else Stuck
    case _ => c
  }

  function Steps(p: Prog, c: Config, n: nat): Config
    decreases n
  {
    if n == 0 then c else Steps(p, Step(p, c), n - 1)
  }

  ghost predicate Reaches(p: Prog, a: Config, b: Config) {
    exists n: nat :: Steps(p, a, n) == b
  }

  lemma {:induction false} StepsAdd(p: Prog, c: Config, m: nat, n: nat)
    ensures Steps(p, c, m + n) == Steps(p, Steps(p, c, m), n)
    decreases m
  {
    if m > 0 {
      StepsAdd(p, Step(p, c), m - 1, n);
    }
  }

  lemma Refl(p: Prog, a: Config)
    ensures Reaches(p, a, a)
  {
    assert Steps(p, a, 0) == a;
  }

  lemma Trans(p: Prog, a: Config, b: Config, c: Config)
    requires Reaches(p, a, b) && Reaches(p, b, c)
    ensures Reaches(p, a, c)
  {
    var m: nat :| Steps(p, a, m) == b;
    var n: nat :| Steps(p, b, n) == c;
    StepsAdd(p, a, m, n);
  }

  lemma OneStep(p: Prog, a: Config)
    ensures Reaches(p, a, Step(p, a))
  {
    assert Steps(p, a, 1) == Steps(p, Step(p, a), 0);
  }

  // The machine is deterministic, so a run that ends has one outcome.
  lemma {:induction false} FinalUnique(p: Prog, a: Config, b: Config, c: Config)
    requires Reaches(p, a, b) && Reaches(p, a, c) && !b.Run? && !c.Run?
    ensures b == c
  {
    var m: nat :| Steps(p, a, m) == b;
    var n: nat :| Steps(p, a, n) == c;
    StepsAdd(p, a, m, n);
    StepsAdd(p, a, n, m);
    FinalStays(p, b, n);
    FinalStays(p, c, m);
  }

  lemma {:induction false} FinalStays(p: Prog, c: Config, n: nat)
    requires !c.Run?
    ensures Steps(p, c, n) == c
    decreases n
  {
    if n > 0 {
      FinalStays(p, c, n - 1);
    }
  }

  // Running a prefix of a block's code.
  lemma {:induction false} RunCode(p: Prog, bb: BlockId, c: Code, s: State)
    requires bb in p.blocks && IsPrefix(c, p.blocks[bb].code)
    ensures match Exec(p.w, c, s)
            case Ok(s1) => Reaches(p, Run(bb, 0, s), Run(bb, Len(c), s1))
            case Raise(s1) => Reaches(p, Run(bb, 0, s), Thrown(s1))
            case Bad => true
  {
    match c
    case Nil => Refl(p, Run(bb, 0, s));
    case Then(b, i) =>
      PrefixAt(c, p.blocks[bb].code);
      PrefixAt(b, p.blocks[bb].code);
      RunCode(p, bb, b, s);
      match Exec(p.w, b, s)
      case Ok(s1) =>
        assert Len(c) <= Len(p.blocks[bb].code);
        OneStep(p, Run(bb, Len(b), s1));
        Trans(p, Run(bb, 0, s), Run(bb, Len(b), s1), Step(p, Run(bb, Len(b), s1)));
      case Raise(s1) =>
      case Bad =>
  }

  // The terminator of a block, from the point after its code.
  lemma RunTerm(p: Prog, bb: BlockId, s: State)
    requires bb in p.blocks && p.blocks[bb].term.Some?
    ensures Reaches(p, Run(bb, Len(p.blocks[bb].code), s), Jump(p.w, p.blocks[bb].term.value, s))
  {
    OneStep(p, Run(bb, Len(p.blocks[bb].code), s));
  }

  // A whole block whose code neither gets stuck nor raises.
  lemma RunBlock(p: Prog, bb: BlockId, s: State)
    requires bb in p.blocks && p.blocks[bb].term.Some?
    requires Exec(p.w, p.blocks[bb].code, s).Ok?
    ensures Reaches(p, Run(bb, 0, s), Jump(p.w, p.blocks[bb].term.value, Exec(p.w, p.blocks[bb].code, s).s))
  {
    var s1 := Exec(p.w, p.blocks[bb].code, s).s;
    RunCode(p, bb, p.blocks[bb].code, s);
    RunTerm(p, bb, s1);
    Trans(p, Run(bb, 0, s), Run(bb, Len(p.blocks[bb].code), s1), Jump(p.w, p.blocks[bb].term.value, s1));
  }
}
