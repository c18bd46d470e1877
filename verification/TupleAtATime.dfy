/** Pushing tuples one at a time through a pipeline yields what its operators yield on whole
    streams. */
module TupleAtATime {
  import opened Storage
  import opened Runtime
  import opened Machine
  import opened Plan
  import opened Algebra

  lemma PushAllCons(w: World, r: Rest, t: Tuple, ts: seq<Tuple>, k: Flow)
    ensures PushAll(w, r, [t] + ts, k) ==
            var a := Push(w, r, t, k);
            if a.exit != Back then a
            else var b := PushAll(w, r, ts, a.k); Outcome(a.emit + b.emit, b.k, b.exit)
  {
    assert ([t] + ts)[1..] == ts;
  }

  lemma PushAllNone(w: World, r: Rest, k: Flow)
    ensures PushAll(w, r, [], k) == Outcome([], k, Back)
  {
  }

  lemma PushAllOne(w: World, r: Rest, t: Tuple, k: Flow)
    ensures PushAll(w, r, [t], k) == Push(w, r, t, k)
  {
    assert [t] == [t] + [];
    PushAllCons(w, r, t, [], k);
    var a := Push(w, r, t, k);
    assert a.emit + [] == a.emit;
  }

  lemma {:induction false} PushAllAppend(w: World, r: Rest, a: seq<Tuple>, b: seq<Tuple>, k: Flow)
    ensures PushAll(w, r, a + b, k) ==
            var x := PushAll(w, r, a, k);
            if x.exit != Back then x
            else var y := PushAll(w, r, b, x.k); Outcome(x.emit + y.emit, y.k, y.exit)
    decreases |a|
  {
    hide Push;
    if a == [] {
      assert a + b == b;
      var y := PushAll(w, r, b, k);
      assert [] + y.emit == y.emit;
    } else {
      assert a + b == [a[0]] + (a[1..] + b);
      PushAllCons(w, r, a[0], a[1..] + b, k);
      var h := Push(w, r, a[0], k);
      if h.exit == Back {
        PushAllAppend(w, r, a[1..], b, h.k);
        var x := PushAll(w, r, a[1..], h.k);
        if x.exit == Back {
          var y := PushAll(w, r, b, x.k);
          assert h.emit + (x.emit + y.emit) == (h.emit + x.emit) + y.emit;
        }
      }
    }
  }

  // An operator that makes tuples of a tuple, and uses no list, can be fused into the tuples it makes.
  lemma {:induction false} FuseFlat(w: World, r: Rest, ts: seq<Tuple>, k: Flow)
    requires IsFlat(r) && !(r.Foreach? && IsVariable(r))
    ensures PushAll(w, r, ts, k) == PushAll(w, Onward(r), FlatMap(w.g, r, ts, k.input), k)
    decreases |ts|
  {
    hide NextTuples;
    if ts != [] {
      var next := NextTuples(w.g, r, ts[0], k.input);
      var a := PushAll(w, Onward(r), next, k);
      assert a == Push(w, r, ts[0], k);
      PushAllAppend(w, Onward(r), next, FlatMap(w.g, r, ts[1..], k.input), k);
      if a.exit == Back {
        InputStaysAll(w, Onward(r), next, k);
        FuseFlat(w, r, ts[1..], a.k);
      }
    }
  }

  // ----- what is carried through -----

  lemma {:induction false} InputStays(w: World, r: Rest, t: Tuple, k: Flow)
    ensures Push(w, r, t, k).k.input == k.input
    decreases r, 0, 0
  {
    hide NextTuples;
    match r
    case Collect =>
    case End =>
    case Sort(next) => InputStays(w, next, t, k);
    case Project(es, next) => InputStays(w, next, ProjectTuple(w.g, es, t), k);
    case Limit(_, next) => InputStays(w, next, t, k.(count := (k.count + 1) % TWO_64));
    case Foreach(_, _, _, _, next) =>
      if IsVariable(r) {
        var list := k.left + Gathered(w.g, r, t);
        InputStaysAll(w, next, IdTuples(t, list), k.(left := list));
      } else {
        InputStaysAll(w, next, NextTuples(w.g, r, t, k.input), k);
      }
    case _ => InputStaysAll(w, Onward(r), NextTuples(w.g, r, t, k.input), k);
  }

  lemma {:induction false} InputStaysAll(w: World, r: Rest, ts: seq<Tuple>, k: Flow)
    ensures PushAll(w, r, ts, k).k.input == k.input
    decreases r, 1, |ts|
  {
    if ts != [] {
      InputStays(w, r, ts[0], k);
      InputStaysAll(w, r, ts[1..], Push(w, r, ts[0], k).k);
    }
  }

  function WithLeft(o: Outcome, l: seq<nat>): Outcome {
    o.(k := o.k.(left := l))
  }

  function WithCount(o: Outcome, c: nat): Outcome {
    o.(k := o.k.(count := c))
  }

  // Without a variable-hop traversal the list is carried through.
  lemma {:induction false} NoVar(w: World, r: Rest, t: Tuple, k: Flow, l: seq<nat>)
    requires !HasVar(r)
    ensures Push(w, r, t, k).k.left == k.left && Push(w, r, t, k.(left := l)) == WithLeft(Push(w, r, t, k), l)
    decreases r, 0, 0
  {
    hide NextTuples;
    match r
    case Collect =>
    case End =>
    case Sort(next) => NoVar(w, next, t, k, l);
    case Project(es, next) => NoVar(w, next, ProjectTuple(w.g, es, t), k, l);
    case Limit(_, next) => NoVar(w, next, t, k.(count := (k.count + 1) % TWO_64), l);
    case _ => NoVarAll(w, Onward(r), NextTuples(w.g, r, t, k.input), k, l);
  }

  lemma {:induction false} NoVarAll(w: World, r: Rest, ts: seq<Tuple>, k: Flow, l: seq<nat>)
    requires !HasVar(r)
    ensures PushAll(w, r, ts, k).k.left == k.left
    ensures PushAll(w, r, ts, k.(left := l)) == WithLeft(PushAll(w, r, ts, k), l)
    decreases r, 1, |ts|
  {
    if ts != [] {
      NoVar(w, r, ts[0], k, l);
      NoVarAll(w, r, ts[1..], Push(w, r, ts[0], k).k, l);
    }
  }

  lemma {:induction false} FuseSort(w: World, r: Rest, ts: seq<Tuple>, k: Flow)
    requires r.Sort?
    ensures PushAll(w, r, ts, k) == PushAll(w, r.next, ts, k)
    decreases |ts|
  {
    if ts != [] {
      var a := Push(w, r, ts[0], k);
      if a.exit == Back {
        FuseSort(w, r, ts[1..], a.k);
      }
    }
  }

  // Without a Limit the counter is carried through and never stops anything.
  lemma {:induction false} NoLimit(w: World, r: Rest, t: Tuple, k: Flow, c: nat)
    requires !HasLimit(r)
    ensures Push(w, r, t, k).k.count == k.count && Push(w, r, t, k).exit != Limited
    ensures Push(w, r, t, k.(count := c)) == WithCount(Push(w, r, t, k), c)
    decreases r, 0, 0
  {
    hide NextTuples;
    match r
    case Collect =>
    case End =>
    case Sort(next) => NoLimit(w, next, t, k, c);
    case Project(es, next) => NoLimit(w, next, ProjectTuple(w.g, es, t), k, c);
    case Limit(_, _) =>
    case Foreach(_, _, _, _, next) =>
      if IsVariable(r) {
        var list := k.left + Gathered(w.g, r, t);
        NoLimitAll(w, next, IdTuples(t, list), k.(left := list), c);
      } else {
        NoLimitAll(w, next, NextTuples(w.g, r, t, k.input), k, c);
      }
    case _ => NoLimitAll(w, Onward(r), NextTuples(w.g, r, t, k.input), k, c);
  }

  lemma {:induction false} NoLimitAll(w: World, r: Rest, ts: seq<Tuple>, k: Flow, c: nat)
    requires !HasLimit(r)
    ensures PushAll(w, r, ts, k).k.count == k.count && PushAll(w, r, ts, k).exit != Limited
    ensures PushAll(w, r, ts, k.(count := c)) == WithCount(PushAll(w, r, ts, k), c)
    decreases r, 1, |ts|
  {
    if ts != [] {
      NoLimit(w, r, ts[0], k, c);
      NoLimitAll(w, r, ts[1..], Push(w, r, ts[0], k).k, c);
    }
  }

  // From an empty list a variable-hop traversal can be fused as well; a Limit that leaves it half-way leaves the
  // list as it was gathered.
  lemma {:induction false} FuseVar(w: World, r: Rest, ts: seq<Tuple>, k: Flow)
    requires r.Foreach? && IsVariable(r) && !HasVar(r.next) && k.left == []
    ensures var o, p := PushAll(w, r, ts, k), PushAll(w, r.next, FlatMap(w.g, r, ts, k.input), k);
            && o.emit == p.emit && o.exit == p.exit
            && (o.exit == Back ==> o.k == p.k && o.k.left == []) && (o.exit == Limited ==> o.k.left != [])
    decreases |ts|
  {
    hide Gathered;
    if ts != [] {
      var a := OneActivation(w, r, ts[0], k);
      PushAllAppend(w, r.next, NextTuples(w.g, r, ts[0], k.input), FlatMap(w.g, r, ts[1..], k.input), k);
      if a.exit == Back {
        FuseVar(w, r, ts[1..], a.k);
      }
    }
  }

  lemma OneActivation(w: World, r: Rest, t: Tuple, k: Flow) returns (o: Outcome)
    requires r.Foreach? && IsVariable(r) && !HasVar(r.next) && k.left == []
    ensures var p := PushAll(w, r.next, NextTuples(w.g, r, t, k.input), k);
            && o == Push(w, r, t, k) && o.emit == p.emit && o.exit == p.exit && o.k.input == k.input
            && (o.exit == Back ==> o.k == p.k && o.k.left == []) && (o.exit == Limited ==> o.k.left != [])
  {
    hide PushAll;
    var own := Gathered(w.g, r, t);
    assert [] + own == own;
    assert NextTuples(w.g, r, t, k.input) == IdTuples(t, own);
    o := Push(w, r, t, k);
    NoVarAll(w, r.next, IdTuples(t, own), k, own);
    InputStays(w, r, t, k);
    if own == [] {
      PushAllNone(w, r.next, k);
    }
  }

  // A stream pushed through a pipeline; the exception at its end shows only if control gets there.
  ghost function PushStream(w: World, r: Rest, s: Stream, k: Flow): Outcome {
    var o := PushAll(w, r, s.ts, k);
    if o.exit == Back && s.threw then o.(exit := Raised) else o
  }

  lemma {:induction false} FuseProject(w: World, r: Rest, s: Stream, k: Flow)
    requires r.Project?
    ensures PushStream(w, r, s, k) == PushStream(w, r.next, ProjectStream(w.g, r.exprs, s), k)
    decreases |s.ts|
  {
    if s.ts != [] && !Projectable(w.g, r.exprs, s.ts[0]) {
      assert Push(w, r, s.ts[0], k) == Outcome([], k, Raised);
    } else if s.ts != [] {
      var rest := ProjectStream(w.g, r.exprs, s.(ts := s.ts[1..]));
      PushAllCons(w, r.next, ProjectTuple(w.g, r.exprs, s.ts[0]), rest.ts, k);
      var a := Push(w, r, s.ts[0], k);
      if a.exit == Back {
        FuseProject(w, r, s.(ts := s.ts[1..]), a.k);
      }
    }
  }

  lemma NextCount(c: nat, n: int)
    requires c < n % TWO_64
    ensures (c + 1) % TWO_64 == c + 1
  {
  }

  lemma UnderLimit(w: World, r: Rest, t: Tuple, k: Flow)
    requires r.Limit? && !HasLimit(r.next) && k.count < r.n % TWO_64
    ensures var p := Push(w, r.next, t, k.(count := 0));
            Push(w, r, t, k) == WithCount(p, k.count + 1) && p.k.count == 0 && p.exit != Limited
  {
    hide PushAll, NextTuples, HasLimit;
    NextCount(k.count, r.n);
    NoLimit(w, r.next, t, k.(count := 0), k.count + 1);
  }

  // With some tuples let through, a Limit passes as many more as are left.
  lemma {:induction false} FuseLimit(w: World, r: Rest, ts: seq<Tuple>, k: Flow)
    requires r.Limit? && !HasLimit(r.next) && k.count <= r.n % TWO_64
    ensures var more := r.n % TWO_64 - k.count;
            var o := PushAll(w, r, ts, k);
            var cut := if |ts| > more then ts[..more] else ts;
            var p := PushAll(w, r.next, cut, k.(count := 0));
            o.emit == p.emit && o.k.left == p.k.left
            && o.exit == (if p.exit == Raised then Raised else if |ts| > more then Limited else Back)
    decreases |ts|, 1
  {
    var more := r.n % TWO_64 - k.count;
    if ts != [] && more == 0 {
      assert Push(w, r, ts[0], k) == Outcome([], k, Limited);
    } else if ts != [] {
      UnderOne(w, r, ts, k, more);
    }
  }

  lemma {:induction false} UnderOne(w: World, r: Rest, ts: seq<Tuple>, k: Flow, more: nat)
    requires r.Limit? && !HasLimit(r.next) && ts != [] && more > 0 && k.count + more == r.n % TWO_64
    ensures var o := PushAll(w, r, ts, k);
            var cut := if |ts| > more then ts[..more] else ts;
            var p := PushAll(w, r.next, cut, k.(count := 0));
            o.emit == p.emit && o.k.left == p.k.left
            && o.exit == (if p.exit == Raised then Raised else if |ts| > more then Limited else Back)
    decreases |ts|, 0
  {
    hide Push, HasLimit;
    UnderLimit(w, r, ts[0], k);
    var rest, p := ts[1..], Push(w, r.next, ts[0], k.(count := 0));
    var cut := if |rest| > more - 1 then rest[..more - 1] else rest;
    assert (if |ts| > more then ts[..more] else ts) == [ts[0]] + cut;
    PushAllCons(w, r.next, ts[0], cut, k.(count := 0));
    if p.exit == Back {
      FuseLimit(w, r, rest, WithCount(p, k.count + 1).k);
    }
  }

  // The rows of the second input are what it means.
  ghost predicate Feeds(w: World, r: Rest, rows: seq<Tuple>) {
    r.Collect? || r.End? || ((r.Join? ==> rows == Eval(w, r.rhs).ts) && Feeds(w, Tail(r), rows))
  }

  // More tuples arrive at a Limit than it lets through.
  ghost predicate Overfull(w: World, r: Rest, s: Stream) {
    && !r.Collect? && !r.End?
    && ((r.Limit? && |s.ts| > r.n % TWO_64) || Overfull(w, Tail(r), Apply(w, r, s)))
  }

  lemma {:induction false} NotOverfull(w: World, r: Rest, s: Stream)
    requires !HasLimit(r)
    ensures !Overfull(w, r, s)
    decreases r
  {
    hide Apply;
    if !r.Collect? && !r.End? {
      NotOverfull(w, Tail(r), Apply(w, r, s));
    }
  }

  /** Limit refines take, and the nested loops refine the operators: pushing a stream tuple by tuple
      emits exactly the tuples of its denotation, in order, and raises exactly if it does; the limit is reached
      exactly if too many tuples arrive there. */
  lemma {:induction false} PushRefinesDenote(w: World, r: Rest, s: Stream, k: Flow)
    requires OneLimit(r) && OneVar(r) && OneJoin(r) && Feeds(w, r, k.input) && k.count == 0 && k.left == []
    ensures PushStream(w, r, s, k).emit == Denote(w, r, s).ts
    ensures PushStream(w, r, s, k).exit == Raised <==> Denote(w, r, s).threw
    ensures PushStream(w, r, s, k).exit == Limited <==> Overfull(w, r, s) && !Denote(w, r, s).threw
    decreases r
  {
    hide Eval;
    match r
    case Collect => EmitAll(w, r, s.ts, k);
    case End => EmitAll(w, r, s.ts, k);
    case Sort(next) => FuseSort(w, r, s.ts, k); PushRefinesDenote(w, next, s, k);
    case Project(es, next) => FuseProject(w, r, s, k); PushRefinesDenote(w, next, Apply(w, r, s), k);
    case Limit(n, next) =>
      FuseLimit(w, r, s.ts, k);
      PushRefinesDenote(w, next, Take(s, n % TWO_64), k);
      NoLimitAll(w, next, Take(s, n % TWO_64).ts, k, 0);
      NotOverfull(w, next, Take(s, n % TWO_64));
    case _ =>
      FuseAny(w, r, s.ts, k);
      FlatApply(w, r, s, k.input);
      PushRefinesDenote(w, Tail(r), Apply(w, r, s), k);
  }

  lemma FuseAny(w: World, r: Rest, ts: seq<Tuple>, k: Flow)
    requires IsFlat(r) && OneVar(r) && OneJoin(r) && k.left == []
    ensures var o, p := PushAll(w, r, ts, k), PushAll(w, Tail(r), FlatMap(w.g, r, ts, k.input), k);
            o.emit == p.emit && o.exit == p.exit
  {
    hide PushAll, FlatMap;
    if r.Foreach? && IsVariable(r) { FuseVar(w, r, ts, k); } else { FuseFlat(w, r, ts, k); }
  }

  lemma FlatApply(w: World, r: Rest, s: Stream, rows: seq<Tuple>)
    requires IsFlat(r) && Feeds(w, r, rows)
    ensures Apply(w, r, s) == Stream(FlatMap(w.g, r, s.ts, rows), s.threw)
  {
    if !r.Join? {
      RowsUnused(w.g, r, s.ts, rows, []);
    }
  }

  lemma {:induction false} RowsUnused(g: Graph, r: Rest, ts: seq<Tuple>, a: seq<Tuple>, b: seq<Tuple>)
    requires IsFlat(r) && !r.Join?
    ensures FlatMap(g, r, ts, a) == FlatMap(g, r, ts, b)
    decreases |ts|
  {
    if ts != [] {
      RowsUnused(g, r, ts[1..], a, b);
    }
  }

  /** A variable-hop traversal leaves something in the list if and only if a Limit below it is reached. */
  lemma {:induction false} LeftBehind(w: World, r: Rest, s: Stream, k: Flow)
    requires OneLimit(r) && OneVar(r) && OneJoin(r) && Feeds(w, r, k.input) && k.count == 0 && k.left == []
    requires !Denote(w, r, s).threw
    ensures PushStream(w, r, s, k).k.left != [] <==> LimitUnderVar(r) && Overfull(w, r, s)
    decreases r
  {
    hide Eval;
    match r
    case Collect => EmitAll(w, r, s.ts, k);
    case End => EmitAll(w, r, s.ts, k);
    case Sort(next) => FuseSort(w, r, s.ts, k); LeftBehind(w, next, s, k);
    case Project(es, next) => FuseProject(w, r, s, k); LeftBehind(w, next, Apply(w, r, s), k);
    case Limit(n, next) =>
      FuseLimit(w, r, s.ts, k);
      LeftBehind(w, next, Take(s, n % TWO_64), k);
      if LimitUnderVar(next) {
        UnderNeedsLimit(next);
      }
    case Foreach(_, _, _, _, next) =>
      if IsVariable(r) {
        LeftByVar(w, r, s, k);
      } else {
        LeftBehind(w, next, Apply(w, r, s), k);
        LeftByFlat(w, r, s, k);
      }
    case _ => LeftBehind(w, Tail(r), Apply(w, r, s), k); LeftByFlat(w, r, s, k);
  }

  lemma LeftByFlat(w: World, r: Rest, s: Stream, k: Flow)
    requires IsFlat(r) && !(r.Foreach? && IsVariable(r)) && OneJoin(r) && Feeds(w, r, k.input)
    requires PushStream(w, Tail(r), Apply(w, r, s), k).k.left != []
             <==> LimitUnderVar(Tail(r)) && Overfull(w, Tail(r), Apply(w, r, s))
    ensures PushStream(w, r, s, k).k.left != [] <==> LimitUnderVar(r) && Overfull(w, r, s)
  {
    hide Eval, Apply, PushAll;
    FlatApply(w, r, s, k.input);
    FuseFlat(w, r, s.ts, k);
  }

  lemma LeftByVar(w: World, r: Rest, s: Stream, k: Flow)
    requires r.Foreach? && IsVariable(r) && OneLimit(r) && OneVar(r) && OneJoin(r) && Feeds(w, r, k.input)
             && k.count == 0 && k.left == []
    requires !Denote(w, r, s).threw
    ensures PushStream(w, r, s, k).k.left != [] <==> LimitUnderVar(r) && Overfull(w, r, s)
  {
    hide Eval, Apply;
    FuseVar(w, r, s.ts, k);
    PushRefinesDenote(w, r, s, k);
    if !HasLimit(r.next) {
      NotOverfull(w, r.next, Apply(w, r, s));
    }
  }

  lemma {:induction false} EmitAll(w: World, r: Rest, ts: seq<Tuple>, k: Flow)
    requires r.Collect? || r.End?
    ensures PushAll(w, r, ts, k) == Outcome(ts, k, Back)
    decreases |ts|
  {
    if ts != [] {
      EmitAll(w, r, ts[1..], k);
      assert [ts[0]] + ts[1..] == ts;
    }
  }

  // ----- two Limits -----

  // Two Limits one behind the other share the counter, which so goes up by two for each tuple. The first
  // stops the query at an even count, the second at an odd one; if neither can, nothing does.
  function StopsAfter(m: nat, n: nat): Option<nat> {
    if m % 2 == 0 && (n % 2 == 0 || m < n) then Some(m / 2)
    else if n % 2 == 1 then Some(n / 2)
    else None
  }

  function Smaller(m: nat, n: nat): nat {
    if m < n then m else n
  }

  function CutAt(ts: seq<Tuple>, stop: Option<nat>): seq<Tuple> {
    if stop.Some? && |ts| > stop.value then ts[..stop.value] else ts
  }

  function BothLimits(m: int, n: int): Rest {
    Limit(m, Limit(n, Collect))
  }

  // What is still to come once i tuples have passed.
  function Remaining(m: int, n: int, i: nat): Option<nat> {
    var stop := StopsAfter(m % TWO_64, n % TWO_64);
    if stop.Some? && stop.value >= i then Some(stop.value - i) else None
  }

  lemma PushBoth(w: World, m: int, n: int, t: Tuple, k: Flow)
    requires k.count % 2 == 0 && k.count < TWO_64
    ensures Push(w, BothLimits(m, n), t, k) ==
            if k.count == m % TWO_64 then Outcome([], k, Limited)
            else if k.count + 1 == n % TWO_64 then Outcome([], k.(count := k.count + 1), Limited)
            else Outcome([t], k.(count := (k.count + 2) % TWO_64), Back)
  {
    assert (k.count + 1) % TWO_64 == k.count + 1;
    var k1 := k.(count := k.count + 1);
    assert Push(w, Limit(n, Collect), t, k1) ==
           if k1.count == n % TWO_64 then Outcome([], k1, Limited)
           else Outcome([t], k.(count := (k.count + 2) % TWO_64), Back);
  }

  // The counter after i tuples, which may have gone round.
  function CountAfter(i: nat): nat {
    2 * i % TWO_64
  }

  // Control leaves exactly at the stopping point.
  lemma StopHere(m: nat, n: nat, i: nat)
    requires m < TWO_64 && n < TWO_64 && (StopsAfter(m, n).Some? ==> i <= StopsAfter(m, n).value)
    ensures CountAfter(i) % 2 == 0
    ensures CountAfter(i) == m || CountAfter(i) + 1 == n <==> StopsAfter(m, n) == Some(i)
    ensures (CountAfter(i) + 2) % TWO_64 == CountAfter(i + 1)
  {
    var c := CountAfter(i);
    assert 2 * i == c + TWO_64 * (2 * i / TWO_64);
    assert c == 2 * (i - 0x8000_0000_0000_0000 * (2 * i / TWO_64));
    if StopsAfter(m, n).Some? {
      assert c == 2 * i;
    }
  }

  lemma {:induction false} TwoLimitsRun(w: World, m: int, n: int, ts: seq<Tuple>, i: nat, k: Flow)
    requires var stop := StopsAfter(m % TWO_64, n % TWO_64); stop.Some? ==> i <= stop.value
    requires k.count == CountAfter(i)
    ensures var more := Remaining(m, n, i);
            var o := PushAll(w, BothLimits(m, n), ts, k);
            && o.emit == CutAt(ts, more)
            && o.exit == if more.Some? && |ts| > more.value then Limited else Back
    decreases |ts|
  {
    hide Push, CountAfter, StopsAfter;
    StopHere(m % TWO_64, n % TWO_64, i);
    if ts != [] {
      assert CountAfter(i) < TWO_64 by { CountBelow(i); }
      PushBoth(w, m, n, ts[0], k);
      if StopsAfter(m % TWO_64, n % TWO_64) != Some(i) {
        TwoLimitsRun(w, m, n, ts[1..], i + 1, k.(count := CountAfter(i + 1)));
        assert [ts[0]] + CutAt(ts[1..], Remaining(m, n, i + 1)) == CutAt(ts, Remaining(m, n, i));
      }
    }
  }

  lemma CountBelow(i: nat)
    ensures CountAfter(i) < TWO_64
  {
  }

  /** Two Limits in one pipeline, on every stream: what comes out is cut where the shared counter stops the
      query, which is what the operators mean if and only if that is after the smaller limit, or the
      stream is too short for either to matter. */
  lemma TwoLimitsIff(w: World, m: int, n: int, s: Stream, k: Flow)
    requires k.count == 0
    ensures var stop := StopsAfter(m % TWO_64, n % TWO_64);
            var low := Smaller(m % TWO_64, n % TWO_64);
            var o, d := PushStream(w, BothLimits(m, n), s, k), Denote(w, BothLimits(m, n), s);
            && o.emit == CutAt(s.ts, stop) && d.ts == CutAt(s.ts, Some(low))
            && (o.emit == d.ts && (o.exit == Raised <==> d.threw)
                <==> stop == Some(low) || (|s.ts| <= low && (stop.Some? ==> |s.ts| <= stop.value)))
  {
    hide StopsAfter;
    var stop, M, N := StopsAfter(m % TWO_64, n % TWO_64), m % TWO_64, n % TWO_64;
    TwoLimitsRun(w, m, n, s.ts, 0, k);
    assert Remaining(m, n, 0) == stop;
    assert Denote(w, Limit(n, Collect), Take(s, M)) == Take(Take(s, M), N);
    assert Denote(w, BothLimits(m, n), s) == Take(Take(s, M), N);
    if N <= M < |s.ts| {
      assert s.ts[..M][..N] == s.ts[..N];
    }
  }

  // A failing input: with limits of one each, the first has counted the first tuple when the second looks,
  // and nothing comes out.
  lemma TwoLimitsDiffer(w: World, t: Tuple, k: Flow)
    requires k.count == 0
    ensures PushStream(w, BothLimits(1, 1), Stream([t], false), k).emit == []
    ensures Denote(w, BothLimits(1, 1), Stream([t], false)).ts == [t]
  {
    hide PushAll, Denote;
    TwoLimitsIff(w, 1, 1, Stream([t], false), k);
  }
}
