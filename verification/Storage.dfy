/** The property graph as the emitted code sees it: records reached through
    pointers and 64-bit ids, linked into chains that end in UNKNOWN_ID. */
module Storage {
  datatype Option<+T> = None | Some(value: T)

  // The end marker of every chain, and the bound a relationship loop compares against.
  const UNKNOWN_ID: nat := 0xFFFF_FFFF_FFFF_FFFF
  const INT64_MAX: nat := 0x7FFF_FFFF_FFFF_FFFF
  const TWO_64: nat := 0x1_0000_0000_0000_0000

  // Fields 1 to 5 of a node record, fields 1 to 7 of a relationship record.
  datatype NodeRec = NodeRec(id: nat, fromRships: nat, toRships: nat, props: nat, labelCode: nat)
  datatype RshipRec = RshipRec(id: nat, src: nat, dst: nat, nextSrc: nat, nextDst: nat, props: nat, labelCode: nat)

  // A property set holds three items and the id of the next set.
  datatype PItem = PItem(key: nat, value: nat)
  datatype PSet = PSet(next: nat, items: seq<PItem>)
  const MAX_PITEM_CNT: nat := 3

  // Typed property values, as a node or relationship description holds them.
  datatype PropVal = PInt(i: int) | PU64(u: nat) | PStr(s: string) | PTime(t: int)
  datatype Desc = Desc(props: map<string, PropVal>)

  /** The database, fixed while a query runs. `nodes` is what the range iterator of the
      scan walks over; a null pointer is modelled by None. */
  datatype Graph = Graph(
    nodes: seq<nat>,
    valid: nat -> nat,
    node: nat -> NodeRec,
    nodeById: nat -> Option<nat>,
    rship: nat -> RshipRec,
    pset: nat -> PSet,
    code: string -> nat,
    nodeDesc: nat -> Desc,
    rshipDesc: nat -> Desc,
    nodeText: nat -> string,
    rshipText: nat -> string,
    varHop: (nat, nat, int, int) -> seq<nat>,
    index: (string, string, nat) -> Option<nat>)

  datatype Dir = From | To

  function First(n: NodeRec, d: Dir): nat {
    if d == From then n.fromRships else n.toRships
  }

  function Next(r: RshipRec, d: Dir): nat {
    if d == From then r.nextSrc else r.nextDst
  }

  // `ids` are the relationships met from `id` on, up to the end marker.
  ghost predicate Linked(g: Graph, d: Dir, id: nat, ids: seq<nat>)
    decreases |ids|
  {
    if ids == [] then id == UNKNOWN_ID
    else id == ids[0] && id < INT64_MAX && Linked(g, d, Next(g.rship(id), d), ids[1..])
  }

  // `ids` are the property sets met from `id` on, up to the end marker.
  ghost predicate LinkedSets(g: Graph, id: nat, ids: seq<nat>)
    decreases |ids|
  {
    if ids == [] then id == UNKNOWN_ID
    else id == ids[0] && id < INT64_MAX && LinkedSets(g, g.pset(id).next, ids[1..])
  }

  ghost function Chain(g: Graph, d: Dir, id: nat): seq<nat> {
    if exists ids :: Linked(g, d, id, ids) then var ids :| Linked(g, d, id, ids); ids else []
  }

  ghost function SetChain(g: Graph, id: nat): seq<nat> {
    if exists ids :: LinkedSets(g, id, ids) then var ids :| LinkedSets(g, id, ids); ids else []
  }

  // The node's list, and its chain of property sets, come to the end marker.
  ghost predicate ListEnds(g: Graph, p: nat, d: Dir) {
    exists ids :: Linked(g, d, First(g.node(p), d), ids)
  }

  ghost predicate SetsEnd(g: Graph, p: nat) {
    exists ids :: LinkedSets(g, g.node(p).props, ids)
  }

  // Relationship and property chains are finite, and valid ids are below 2^63 - 1.
  ghost predicate GraphOk(g: Graph) {
    && (forall p: nat, d: Dir :: ListEnds(g, p, d))
    && (forall p: nat :: SetsEnd(g, p))
    && (forall i: nat :: |g.pset(i).items| == MAX_PITEM_CNT)
  }

  // In a proper graph the chain of every node is one.
  lemma ChainIsLinked(g: Graph, p: nat, d: Dir)
    requires GraphOk(g)
    ensures Linked(g, d, First(g.node(p), d), Chain(g, d, First(g.node(p), d)))
  {
    hide Linked, LinkedSets, First;
    assert ListEnds(g, p, d);
  }

  lemma SetChainIsLinked(g: Graph, p: nat)
    requires GraphOk(g)
    ensures LinkedSets(g, g.node(p).props, SetChain(g, g.node(p).props))
  {
    hide Linked, LinkedSets, First;
    assert SetsEnd(g, p);
  }

  // A chain is determined by where it starts.
  lemma {:induction false} LinkedUnique(g: Graph, d: Dir, id: nat, a: seq<nat>, b: seq<nat>)
    requires Linked(g, d, id, a) && Linked(g, d, id, b)
    ensures a == b
    decreases |a|
  {
    if a != [] && b != [] {
      LinkedUnique(g, d, Next(g.rship(id), d), a[1..], b[1..]);
      assert a == [a[0]] + a[1..] && b == [b[0]] + b[1..];
    }
  }

  // The items of a chain of property sets, in the order the search meets them.
  function Items(g: Graph, ids: seq<nat>): seq<PItem> {
    if ids == [] then [] else g.pset(ids[0]).items + Items(g, ids[1..])
  }

  // Linear search: the first item with the key.
  function FirstItem(items: seq<PItem>, key: nat): Option<PItem> {
    if items == [] then None
    else if items[0].key == key then Some(items[0])
    else FirstItem(items[1..], key)
  }

  // FirstItem finds an item with the key exactly when there is one, and nothing before it has the key.
  lemma {:induction false} FirstItemIsFirst(items: seq<PItem>, key: nat)
    ensures FirstItem(items, key) == None <==> forall i :: 0 <= i < |items| ==> items[i].key != key
    ensures FirstItem(items, key).Some? ==>
              exists i :: 0 <= i < |items| && items[i] == FirstItem(items, key).value && items[i].key == key
                          && forall j :: 0 <= j < i ==> items[j].key != key
  {
    if items != [] && items[0].key != key {
      FirstItemIsFirst(items[1..], key);
      assert forall i :: 1 <= i < |items| ==> items[i] == items[1..][i - 1];
      if FirstItem(items[1..], key).Some? {
        var i :| 0 <= i < |items[1..]| && items[1..][i] == FirstItem(items, key).value && items[1..][i].key == key
                 && forall j :: 0 <= j < i ==> items[1..][j].key != key;
        assert forall j :: 0 <= j < i + 1 ==> items[j].key != key;
        assert items[i + 1] == FirstItem(items, key).value;
      }
    }
  }
}
