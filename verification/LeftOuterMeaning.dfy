/** What the rows of a left outer join are, read by their flag. */
module LeftOuterMeaning {
  import opened Storage
  import opened Runtime
  import opened Algebra

  // A row for each relationship in the chain that ends at the right node of a materialized tuple.
  function EdgeRows(g: Graph, t: Tuple, row: Tuple, ids: seq<nat>, dst: nat): seq<Tuple> {
    if ids == [] then []
    else (if g.rship(ids[0]).dst == dst then [t + row + [IntV(0)]] else []) + EdgeRows(g, t, row, ids[1..], dst)
  }

  // The (materialized tuple, relationship) pairs that match, in order.
  function PairRows(g: Graph, t: Tuple, ids: seq<nat>, j: nat, rhs: seq<Tuple>): seq<Tuple> {
    if rhs == [] then [] else EdgeRows(g, t, rhs[0], ids, IdAt(g, rhs[0], j)) + PairRows(g, t, ids, j, rhs[1..])
  }

  // How many materialized tuples come before the first one with a match.
  function Unmatched(g: Graph, ids: seq<nat>, j: nat, rhs: seq<Tuple>): (n: nat)
    ensures n <= |rhs|
    ensures forall i :: 0 <= i < n ==> Hits(g, ids, IdAt(g, rhs[i], j)) == 0
    ensures n < |rhs| ==> Hits(g, ids, IdAt(g, rhs[n], j)) > 0
  {
    if rhs == [] || Hits(g, ids, IdAt(g, rhs[0], j)) > 0 then 0 else 1 + Unmatched(g, ids, j, rhs[1..])
  }

  function DanglingRows(t: Tuple, rhs: seq<Tuple>): seq<Tuple> {
    seq(|rhs|, i requires 0 <= i < |rhs| => t + rhs[i] + [IntV(1)])
  }

  // The rows with a flag.
  function WithFlag(ts: seq<Tuple>, f: nat): seq<Tuple> {
    if ts == [] then []
    else
      var own := if ts[0] != [] && ts[0][|ts[0]| - 1] == IntV(f) then [ts[0]] else [];
      own + WithFlag(ts[1..], f)
  }

  lemma {:induction false} WithFlagAppend(a: seq<Tuple>, b: seq<Tuple>, f: nat)
    ensures WithFlag(a + b, f) == WithFlag(a, f) + WithFlag(b, f)
    decreases |a|
  {
    if a == [] {
      assert a + b == b;
    } else {
      WithFlagAppend(a[1..], b, f);
      assert (a + b)[1..] == a[1..] + b;
    }
  }

  lemma {:induction false} RepeatRows(g: Graph, t: Tuple, row: Tuple, ids: seq<nat>, dst: nat)
    ensures Repeat(t + row + [IntV(0)], Hits(g, ids, dst)) == EdgeRows(g, t, row, ids, dst)
    ensures WithFlag(EdgeRows(g, t, row, ids, dst), 0) == EdgeRows(g, t, row, ids, dst)
    ensures WithFlag(EdgeRows(g, t, row, ids, dst), 1) == []
    decreases |ids|
  {
    if ids != [] {
      RepeatRows(g, t, row, ids[1..], dst);
      var rest := EdgeRows(g, t, row, ids[1..], dst);
      if g.rship(ids[0]).dst == dst {
        assert EdgeRows(g, t, row, ids, dst)[1..] == rest;
      }
    }
  }

  lemma WithFlagThree(a: seq<Tuple>, b: seq<Tuple>, c: seq<Tuple>, f: nat)
    ensures WithFlag(a + b + c, f) == WithFlag(a, f) + WithFlag(b, f) + WithFlag(c, f)
  {
    WithFlagAppend(a + b, c, f);
    WithFlagAppend(a, b, f);
  }

  // The row for a tuple that is still dangling.
  function StillRow(t: Tuple, row: Tuple, still: bool): seq<Tuple> {
    if still then [t + row + [IntV(1)]] else []
  }

  lemma StillByFlag(t: Tuple, row: Tuple, still: bool)
    ensures WithFlag(StillRow(t, row, still), 0) == []
            && WithFlag(StillRow(t, row, still), 1) == StillRow(t, row, still)
  {
    assert StillRow(t, row, true)[1..] == [];
  }

  // The rows from one materialized tuple on, by their flag.
  lemma {:induction false} ByFlag(g: Graph, t: Tuple, ids: seq<nat>, j: nat, rhs: seq<Tuple>, dangling: bool)
    ensures var rows := LeftOuterTuples(g, t, ids, j, rhs, dangling);
            && WithFlag(rows, 0) == PairRows(g, t, ids, j, rhs)
            && WithFlag(rows, 1) == if dangling then DanglingRows(t, rhs[..Unmatched(g, ids, j, rhs)]) else []
    decreases |rhs|
  {
    hide WithFlag, Hits, EdgeRows, Repeat;
    if rhs == [] {
      NoRows(0);
      NoRows(1);
    } else {
      var row, dst, n := rhs[0], IdAt(g, rhs[0], j), Hits(g, ids, IdAt(g, rhs[0], j));
      var still := dangling && n == 0;
      var a, b, c := EdgeRows(g, t, row, ids, dst), StillRow(t, row, still), LeftOuterTuples(g, t, ids, j, rhs[1..],
          still);
      RepeatRows(g, t, row, ids, dst);
      StillByFlag(t, row, still);
      ByFlag(g, t, ids, j, rhs[1..], still);
      assert LeftOuterTuples(g, t, ids, j, rhs, dangling) == a + b + c;
      WithFlagThree(a, b, c, 0);
      WithFlagThree(a, b, c, 1);
      assert a + [] == a && [] + b == b && b + [] == b;
      if still {
        var m := Unmatched(g, ids, j, rhs[1..]);
        assert DanglingRows(t, rhs[..m + 1]) == b + DanglingRows(t, rhs[1..][..m]);
      }
    }
  }

  lemma NoRows(f: nat)
    ensures WithFlag([], f) == []
  {
  }

  /** Of the rows a left outer join makes of a tuple, those with flag 0 are exactly the matching pairs, in
      order, and those with flag 1 are exactly the materialized tuples before the first match. */
  lemma LeftOuterByFlag(g: Graph, t: Tuple, ids: seq<nat>, j: nat, rhs: seq<Tuple>)
    ensures var rows := LeftOuterTuples(g, t, ids, j, rhs, true);
            && WithFlag(rows, 0) == PairRows(g, t, ids, j, rhs)
            && WithFlag(rows, 1) == DanglingRows(t, rhs[..Unmatched(g, ids, j, rhs)])
  {
    ByFlag(g, t, ids, j, rhs, true);
  }

  lemma {:induction false} PairsIffMatched(g: Graph, t: Tuple, ids: seq<nat>, j: nat, rhs: seq<Tuple>)
    ensures PairRows(g, t, ids, j, rhs) != [] <==> Unmatched(g, ids, j, rhs) < |rhs|
    decreases |rhs|
  {
    if rhs != [] {
      PairsIffMatched(g, t, ids, j, rhs[1..]);
      RepeatRows(g, t, rhs[0], ids, IdAt(g, rhs[0], j));
    }
  }

  /** No tuple is lost: a non-empty right input yields at least one row for every tuple. */
  lemma NothingLost(g: Graph, t: Tuple, ids: seq<nat>, j: nat, rhs: seq<Tuple>)
    requires rhs != []
    ensures LeftOuterTuples(g, t, ids, j, rhs, true) != []
  {
    LeftOuterByFlag(g, t, ids, j, rhs);
    PairsIffMatched(g, t, ids, j, rhs);
    var m := Unmatched(g, ids, j, rhs);
    assert m > 0 ==> DanglingRows(t, rhs[..m])[0] == t + rhs[0] + [IntV(1)];
  }

  // The textbook's join of a tuple: its matches if there are any, else exactly one row, which extends the
  // tuple and says so.
  predicate IsTextbook(g: Graph, t: Tuple, ids: seq<nat>, j: nat, rhs: seq<Tuple>, rows: seq<Tuple>) {
    var pairs := PairRows(g, t, ids, j, rhs);
    if pairs != [] then rows == pairs
    else |rows| == 1 && t < rows[0] && rows[0][|rows[0]| - 1] == IntV(1)
  }

  lemma {:induction false} AllPairs(g: Graph, t: Tuple, ids: seq<nat>, j: nat, rhs: seq<Tuple>)
    ensures LeftOuterTuples(g, t, ids, j, rhs, false) == PairRows(g, t, ids, j, rhs)
    decreases |rhs|
  {
    if rhs != [] {
      AllPairs(g, t, ids, j, rhs[1..]);
      RepeatRows(g, t, rhs[0], ids, IdAt(g, rhs[0], j));
      var a := EdgeRows(g, t, rhs[0], ids, IdAt(g, rhs[0], j));
      assert a + [] == a;
    }
  }

  lemma {:induction false} NoPairs(g: Graph, t: Tuple, ids: seq<nat>, j: nat, rhs: seq<Tuple>)
    requires Unmatched(g, ids, j, rhs) == |rhs|
    ensures LeftOuterTuples(g, t, ids, j, rhs, true) == DanglingRows(t, rhs)
    decreases |rhs|
  {
    if rhs != [] {
      NoPairs(g, t, ids, j, rhs[1..]);
      assert DanglingRows(t, rhs) == [t + rhs[0] + [IntV(1)]] + DanglingRows(t, rhs[1..]);
      assert [] + [t + rhs[0] + [IntV(1)]] == [t + rhs[0] + [IntV(1)]];
    }
  }

  /** The code is the textbook's join of a tuple if and only if the right input is not empty, and its first
      tuple is a partner or there is no other. */
  lemma TextbookIff(g: Graph, t: Tuple, ids: seq<nat>, j: nat, rhs: seq<Tuple>)
    ensures IsTextbook(g, t, ids, j, rhs, LeftOuterTuples(g, t, ids, j, rhs, true))
            <==> rhs != [] && (Hits(g, ids, IdAt(g, rhs[0], j)) > 0 || |rhs| == 1)
  {
    var m, pairs := Unmatched(g, ids, j, rhs), PairRows(g, t, ids, j, rhs);
    var rows := LeftOuterTuples(g, t, ids, j, rhs, true);
    PairsIffMatched(g, t, ids, j, rhs);
    LeftOuterByFlag(g, t, ids, j, rhs);
    if m == |rhs| {
      NoPairs(g, t, ids, j, rhs);
      assert |rows| == m && (m == 1 ==> rows[0] == t + rhs[0] + [IntV(1)]);
    } else if m == 0 {
      AllPairs(g, t, ids, j, rhs);
    } else {
      ByFlag(g, t, ids, j, rhs, false);
      AllPairs(g, t, ids, j, rhs);
      assert |DanglingRows(t, rhs[..m])| == m;
    }
  }

  // The three ways to fail. On an empty right input the tuple is lost.
  lemma EmptyInputLoses(g: Graph, t: Tuple, ids: seq<nat>, j: nat)
    ensures LeftOuterTuples(g, t, ids, j, [], true) == []
    ensures !IsTextbook(g, t, ids, j, [], LeftOuterTuples(g, t, ids, j, [], true))
  {
    TextbookIff(g, t, ids, j, []);
  }

  // A tuple without relationships gets a row for each tuple of the right input.
  lemma NoPartnerRepeats(g: Graph, t: Tuple, j: nat, a: Tuple, b: Tuple)
    ensures LeftOuterTuples(g, t, [], j, [a, b], true) == [t + a + [IntV(1)], t + b + [IntV(1)]]
    ensures !IsTextbook(g, t, [], j, [a, b], LeftOuterTuples(g, t, [], j, [a, b], true))
  {
    TextbookIff(g, t, [], j, [a, b]);
    NoPairs(g, t, [], j, [a, b]);
  }

  // A tuple whose partner comes second gets a dangling row as well.
  lemma LatePartnerDangles(g: Graph, t: Tuple, id: nat, j: nat, a: Tuple, b: Tuple)
    requires g.rship(id).dst == IdAt(g, b, j) != IdAt(g, a, j)
    ensures LeftOuterTuples(g, t, [id], j, [a, b], true) == [t + a + [IntV(1)], t + b + [IntV(0)]]
    ensures !IsTextbook(g, t, [id], j, [a, b], LeftOuterTuples(g, t, [id], j, [a, b], true))
  {
    TextbookIff(g, t, [id], j, [a, b]);
    assert Hits(g, [id], IdAt(g, a, j)) == 0 && Hits(g, [id], IdAt(g, b, j)) == 1;
    var last := LeftOuterTuples(g, t, [id], j, [b], false);
    AllPairs(g, t, [id], j, [b]);
    assert EdgeRows(g, t, b, [id], IdAt(g, b, j)) == [t + b + [IntV(0)]];
    assert last == [t + b + [IntV(0)]];
    assert [a, b][1..] == [b];
    assert LeftOuterTuples(g, t, [id], j, [a, b], true) == [] + [t + a + [IntV(1)]] + last;
  }
}
