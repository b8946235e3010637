/** `sortYAMLNode` on linked nodes, rewriting their children in place. */
module YamlInPlace {
  import opened Text
  import Y = Yaml

  datatype Kind = ScalarNode | AliasNode | MappingNode | SequenceNode | DocumentNode

  /** A parsed YAML node. A mapping lists its keys and values in turn. */
  class YamlNode {
    const kind: Kind
    const tag: string
    const text: string
    var content: seq<YamlNode>

    constructor (kind: Kind, tag: string, text: string, content: seq<YamlNode>)
      ensures this.kind == kind && this.tag == tag && this.text == text && this.content == content
    {
      this.kind := kind;
      this.tag := tag;
      this.text := text;
      this.content := content;
    }
  }

  type Pair = (YamlNode, YamlNode)

  // ---------------------------------------------------------------------------------------
  // The tree that hangs under a node
  // ---------------------------------------------------------------------------------------

  /** Which nodes form a tree, and how. */
  datatype Shape =
    | Leaf(node: YamlNode)
    | Pairs(node: YamlNode, rows: seq<Row>)
    | Listing(node: YamlNode, kids: seq<Shape>)

  datatype Row = Row(key: Shape, value: Shape)

  ghost predicate KindFits(s: Shape)
  {
    match s
    case Leaf(n) => n.kind == ScalarNode || n.kind == AliasNode
    case Pairs(n, _) => n.kind == MappingNode && n.text == ""
    case Listing(n, _) => (n.kind == SequenceNode || n.kind == DocumentNode) && n.text == ""
  }

  ghost function Flat(rows: seq<Row>): (c: seq<YamlNode>)
  {
    seq(2 * |rows|, i requires 0 <= i < 2 * |rows| =>
      if i % 2 == 0 then rows[i / 2].key.node else rows[i / 2].value.node)
  }

  ghost function Roots(kids: seq<Shape>): (c: seq<YamlNode>)
  {
    seq(|kids|, i requires 0 <= i < |kids| => kids[i].node)
  }

  ghost function Nodes(s: Shape): set<YamlNode>
    decreases s
  {
    match s
    case Leaf(n) => {n}
    case Pairs(n, rows) => {n} + set i, x | 0 <= i < |rows| && x in RowNodes(rows[i]) :: x
    case Listing(n, kids) => {n} + set i, x | 0 <= i < |kids| && x in Nodes(kids[i]) :: x
  }

  ghost function RowNodes(r: Row): set<YamlNode>
    decreases r
  {
    Nodes(r.key) + Nodes(r.value)
  }

  /** The nodes in memory are linked as the shape says. */
  ghost predicate Linked(s: Shape)
    reads Nodes(s)
    decreases s
  {
    && KindFits(s)
    && match s
       case Leaf(n) => true
       case Pairs(n, rows) => n.content == Flat(rows) && forall i :: 0 <= i < |rows| ==> RowLinked(rows[i])
       case Listing(n, kids) => n.content == Roots(kids) && forall i :: 0 <= i < |kids| ==> Linked(kids[i])
  }

  ghost predicate RowLinked(r: Row)
    reads RowNodes(r)
    decreases r
  {
    Linked(r.key) && Linked(r.value)
  }

  /** No node occurs twice. */
  ghost predicate Separate(s: Shape)
    decreases s
  {
    match s
    case Leaf(_) => true
    case Pairs(n, rows) => RowsApart(rows) && forall i :: 0 <= i < |rows| ==> n !in RowNodes(rows[i]) && RowSeparate(rows[i])
    case Listing(n, kids) => KidsApart(kids) && forall i :: 0 <= i < |kids| ==> n !in Nodes(kids[i]) && Separate(kids[i])
  }

  ghost predicate RowSeparate(r: Row)
    decreases r
  {
    Separate(r.key) && Separate(r.value) && Nodes(r.key) !! Nodes(r.value)
  }

  ghost predicate RowsApart(rows: seq<Row>)
  {
    forall i, j :: 0 <= i < j < |rows| ==> RowNodes(rows[i]) !! RowNodes(rows[j])
  }

  ghost predicate KidsApart(kids: seq<Shape>)
  {
    forall i, j :: 0 <= i < j < |kids| ==> Nodes(kids[i]) !! Nodes(kids[j])
  }

  /** The tree as a value. */
  ghost function Tree(s: Shape): Y.Node
    decreases s
  {
    match s
    case Leaf(n) => if n.kind == AliasNode then Y.Alias(n.text) else Y.Scalar(n.tag, n.text)
    case Pairs(_, rows) => Y.Mapping(Entries(rows))
    case Listing(n, kids) => if n.kind == DocumentNode then Y.Document(Trees(kids)) else Y.Sequence(Trees(kids))
  }

  ghost function Trees(kids: seq<Shape>): (ns: seq<Y.Node>)
    ensures |ns| == |kids|
    decreases kids
  {
    if kids == [] then [] else [Tree(kids[0])] + Trees(kids[1..])
  }

  ghost function Entries(rows: seq<Row>): (es: seq<Y.Entry>)
    ensures |es| == |rows|
    decreases rows
  {
    if rows == [] then [] else [EntryOf(rows[0])] + Entries(rows[1..])
  }

  ghost function EntryOf(r: Row): Y.Entry
    decreases r
  {
    Y.Entry(Tree(r.key), Tree(r.value))
  }

  lemma {:induction false} EntriesAt(rows: seq<Row>, i: nat)
    requires i < |rows|
    ensures Entries(rows)[i] == EntryOf(rows[i])
  {
    if i > 0 {
      EntriesAt(rows[1..], i - 1);
    }
  }

  lemma {:induction false} TreesAt(kids: seq<Shape>, i: nat)
    requires i < |kids|
    ensures Trees(kids)[i] == Tree(kids[i])
  {
    if i > 0 {
      TreesAt(kids[1..], i - 1);
    }
  }

  // ---------------------------------------------------------------------------------------
  // Sorting pairs
  // ---------------------------------------------------------------------------------------

  function InsertPair(p: Pair, ps: seq<Pair>): seq<Pair>
  {
    if ps == [] || !Less(ps[0].0.text, p.0.text) then [p] + ps else [ps[0]] + InsertPair(p, ps[1..])
  }

  function SortPairs(ps: seq<Pair>): seq<Pair>
  {
    if ps == [] then [] else InsertPair(ps[0], SortPairs(ps[1..]))
  }

  ghost function InsertRow(r: Row, rows: seq<Row>): seq<Row>
  {
    if rows == [] || !Less(rows[0].key.node.text, r.key.node.text) then [r] + rows
    else [rows[0]] + InsertRow(r, rows[1..])
  }

  ghost function SortRows(rows: seq<Row>): seq<Row>
  {
    if rows == [] then [] else InsertRow(rows[0], SortRows(rows[1..]))
  }

  ghost function Pointers(rows: seq<Row>): (ps: seq<Pair>)
    ensures |ps| == |rows|
  {
    if rows == [] then [] else [(rows[0].key.node, rows[0].value.node)] + Pointers(rows[1..])
  }

  lemma {:induction false} PointersAt(rows: seq<Row>, i: nat)
    requires i < |rows|
    ensures Pointers(rows)[i] == (rows[i].key.node, rows[i].value.node)
  {
    if i > 0 {
      PointersAt(rows[1..], i - 1);
    }
  }

  ghost predicate KeysFit(rows: seq<Row>)
  {
    forall i :: 0 <= i < |rows| ==> KindFits(rows[i].key)
  }

  lemma KeyText(r: Row)
    requires KindFits(r.key)
    ensures Y.Label(EntryOf(r)) == r.key.node.text
  {
  }

  lemma {:induction false} InsertRowMembers(r: Row, rows: seq<Row>)
    ensures multiset(InsertRow(r, rows)) == multiset(rows) + multiset{r}
    ensures |InsertRow(r, rows)| == |rows| + 1
  {
    if rows != [] && Less(rows[0].key.node.text, r.key.node.text) {
      InsertRowMembers(r, rows[1..]);
      assert rows == [rows[0]] + rows[1..];
    }
  }

  /** Inserting into rows is inserting into their pointers and into their entries. */
  lemma {:induction false} InsertRowAll(r: Row, rows: seq<Row>)
    requires KindFits(r.key) && KeysFit(rows)
    ensures Pointers(InsertRow(r, rows)) == InsertPair((r.key.node, r.value.node), Pointers(rows))
    ensures Entries(InsertRow(r, rows)) == Y.InsertEntry(EntryOf(r), Entries(rows))
  {
    KeyText(r);
    if rows != [] {
      KeyText(rows[0]);
      if Less(rows[0].key.node.text, r.key.node.text) {
        InsertRowAll(r, rows[1..]);
      } else {
        assert ([r] + rows)[1..] == rows;
      }
    }
  }

  lemma {:induction false} InsertRowApart(r: Row, rows: seq<Row>)
    requires RowsApart(rows)
    requires forall i :: 0 <= i < |rows| ==> RowNodes(r) !! RowNodes(rows[i])
    ensures RowsApart(InsertRow(r, rows))
  {
    if rows != [] && Less(rows[0].key.node.text, r.key.node.text) {
      TailApart(rows);
      InsertRowApart(r, rows[1..]);
      InsertRowMembers(r, rows[1..]);
      var t := InsertRow(r, rows[1..]);
      forall i | 0 <= i < |t| ensures RowNodes(rows[0]) !! RowNodes(t[i]) {
        assert t[i] in multiset(t);
        assert t[i] == r || t[i] in rows[1..];
      }
      ConsApart(rows[0], t);
    } else {
      ConsApart(r, rows);
    }
  }

  lemma TailApart(rows: seq<Row>)
    requires RowsApart(rows) && rows != []
    ensures RowsApart(rows[1..])
    ensures forall i :: 0 <= i < |rows[1..]| ==> RowNodes(rows[0]) !! RowNodes(rows[1..][i])
  {
  }

  lemma ConsApart(r: Row, rows: seq<Row>)
    requires RowsApart(rows)
    requires forall i :: 0 <= i < |rows| ==> RowNodes(r) !! RowNodes(rows[i])
    ensures RowsApart([r] + rows)
  {
  }

  lemma {:induction false} SortRowsMembers(rows: seq<Row>)
    ensures |SortRows(rows)| == |rows|
    ensures multiset(SortRows(rows)) == multiset(rows)
  {
    if rows != [] {
      SortRowsMembers(rows[1..]);
      InsertRowMembers(rows[0], SortRows(rows[1..]));
      assert rows == [rows[0]] + rows[1..];
    }
  }

  lemma {:induction false} SortRowsApart(rows: seq<Row>)
    requires RowsApart(rows)
    ensures RowsApart(SortRows(rows))
  {
    if rows != [] {
      TailApart(rows);
      SortRowsApart(rows[1..]);
      SortRowsMembers(rows[1..]);
      var t := SortRows(rows[1..]);
      forall i | 0 <= i < |t| ensures RowNodes(rows[0]) !! RowNodes(t[i]) {
        assert t[i] in multiset(t);
        assert t[i] in rows[1..];
      }
      InsertRowApart(rows[0], t);
    }
  }

  lemma {:induction false} SortRowsAll(rows: seq<Row>)
    requires KeysFit(rows)
    ensures Pointers(SortRows(rows)) == SortPairs(Pointers(rows))
    ensures Entries(SortRows(rows)) == Y.SortByKey(Entries(rows))
  {
    if rows != [] {
      SortRowsAll(rows[1..]);
      SortRowsMembers(rows[1..]);
      var t := SortRows(rows[1..]);
      forall i | 0 <= i < |t| ensures KindFits(t[i].key) {
        assert t[i] in multiset(t);
        assert t[i] in rows[1..];
      }
      InsertRowAll(rows[0], t);
    }
  }

  // ---------------------------------------------------------------------------------------
  // The in-place algorithm
  // ---------------------------------------------------------------------------------------

  /** Rows whose values have been sorted, in the same nodes. */
  ghost predicate ValuesSorted(before: seq<Row>, after: seq<Row>)
  {
    && |after| == |before|
    && forall i :: 0 <= i < |before| ==> RowSorted(before[i], after[i])
  }

  ghost predicate KidsSorted(before: seq<Shape>, after: seq<Shape>)
  {
    |after| == |before| && forall i :: 0 <= i < |before| ==> KidSorted(before[i], after[i])
  }

  ghost predicate KidSorted(before: Shape, after: Shape)
  {
    after.node == before.node && Nodes(after) == Nodes(before) && Tree(after) == Y.SortNode(Tree(before))
  }

  lemma {:induction false} KidsSortedTrees(before: seq<Shape>, after: seq<Shape>)
    requires KidsSorted(before, after)
    ensures Trees(after) == Y.SortAll(Trees(before))
    ensures Roots(after) == Roots(before)
  {
    forall i | 0 <= i < |before| ensures Trees(after)[i] == Y.SortAll(Trees(before))[i] {
      TreesAt(after, i);
      TreesAt(before, i);
      Y.SortAllAt(Trees(before), i);
    }
  }

  lemma {:induction false} ValuesSortedEntries(before: seq<Row>, after: seq<Row>)
    requires ValuesSorted(before, after)
    ensures Entries(after) == Y.SortValues(Entries(before))
    ensures Flat(after) == Flat(before)
  {
    forall i | 0 <= i < |before| ensures Entries(after)[i] == Y.SortValues(Entries(before))[i] {
      EntriesAt(after, i);
      EntriesAt(before, i);
      Y.SortValuesAt(Entries(before), i);
    }
  }

  /** Rewrites the tree under a node, in its own nodes, into its canonical form. No node is no work. */
  method SortYamlNode(n: YamlNode?, ghost s: Shape) returns (ghost t: Shape)
    requires n != null ==> s.node == n && Linked(s) && Separate(s)
    modifies if n == null then {} else Nodes(s)
    ensures n != null ==> t.node == n && Linked(t) && Separate(t) && Nodes(t) == Nodes(s)
    ensures n != null ==> Tree(t) == Y.SortNode(Tree(s))
    decreases s, 1
  {
    t := s;
    if n == null {
      return;
    }
    if n.kind == MappingNode {
      t := SortMapping(n, s);
    } else if n.kind == SequenceNode || n.kind == DocumentNode {
      t := SortKids(n, s);
    }
  }

  ghost predicate KidsReady(kids: seq<Shape>)
    reads KidNodes(kids)
  {
    forall i :: 0 <= i < |kids| ==> Linked(kids[i]) && Separate(kids[i])
  }

  ghost predicate RowsReady(rows: seq<Row>)
    reads AllRowNodes(rows)
  {
    forall i :: 0 <= i < |rows| ==> RowLinked(rows[i]) && RowSeparate(rows[i])
  }

  /** Sorts one child among others, which are not touched. */
  method SortKid(c: YamlNode, ghost kids: seq<Shape>, ghost i: nat) returns (ghost k: Shape)
    requires i < |kids| && c == kids[i].node && KidsApart(kids) && KidsReady(kids)
    modifies Nodes(kids[i])
    ensures KidSorted(kids[i], k)
    ensures KidsReady(kids[i := k])
    decreases kids[i], 2
  {
    k := SortYamlNode(c, kids[i]);
    forall j | 0 <= j < |kids| && j != i ensures Linked(kids[j]) {
      assert Nodes(kids[i]) !! Nodes(kids[j]);
      assert old(allocated(Nodes(kids[j])) && Linked(kids[j]));
    }
  }

  method SortRowValue(c: YamlNode, ghost rows: seq<Row>, ghost i: nat) returns (ghost r: Row)
    requires i < |rows| && c == rows[i].value.node && RowsApart(rows) && RowsReady(rows)
    modifies Nodes(rows[i].value)
    ensures RowSorted(rows[i], r)
    ensures RowsReady(rows[i := r])
    decreases rows[i], 2
  {
    ghost var v := SortYamlNode(c, rows[i].value);
    r := Row(rows[i].key, v);
    assert old(allocated(Nodes(rows[i].key)) && RowLinked(rows[i]) && Linked(rows[i].key));
    forall j | 0 <= j < |rows| && j != i ensures RowLinked(rows[j]) {
      assert RowNodes(rows[i]) !! RowNodes(rows[j]);
      assert old(allocated(RowNodes(rows[j])) && RowLinked(rows[j]));
    }
  }

  ghost function KidNodes(kids: seq<Shape>): set<YamlNode>
  {
    set i, x | 0 <= i < |kids| && x in Nodes(kids[i]) :: x
  }

  ghost function AllRowNodes(rows: seq<Row>): set<YamlNode>
  {
    set i, x | 0 <= i < |rows| && x in RowNodes(rows[i]) :: x
  }

  method SortKids(n: YamlNode, ghost s: Shape) returns (ghost t: Shape)
    requires s.node == n && s.Listing? && Linked(s) && Separate(s)
    modifies Nodes(s)
    ensures t.node == n && Linked(t) && Separate(t) && Nodes(t) == Nodes(s)
    ensures Tree(t) == Y.SortNode(Tree(s))
    decreases s, 0
  {
    ghost var now := SortEach(n, s.kids);
    t := Listing(n, now);
    KidsSortedTrees(s.kids, now);
  }

  lemma SameKidNodes(before: seq<Shape>, after: seq<Shape>)
    requires |after| == |before| && KidsApart(before)
    requires forall j :: 0 <= j < |before| ==> Nodes(after[j]) == Nodes(before[j])
    ensures KidsApart(after)
  {
  }

  /** The loop over the children of a sequence or document. */
  method SortEach(n: YamlNode, ghost kids: seq<Shape>) returns (ghost now: seq<Shape>)
    requires n.content == Roots(kids) && KidsReady(kids) && KidsApart(kids) && n !in KidNodes(kids)
    modifies KidNodes(kids)
    ensures n.content == Roots(kids) && KidsSorted(kids, now) && KidsReady(now)
    decreases kids
  {
    now := kids;
    var i := 0;
    while i < |n.content|
      invariant n.content == Roots(kids) && i <= |kids| == |now|
      invariant forall j :: i <= j < |kids| ==> now[j] == kids[j]
      invariant forall j :: 0 <= j < i ==> KidSorted(kids[j], now[j])
      invariant KidsReady(now)
    {
      assert Nodes(kids[i]) <= KidNodes(kids);
      SameKidNodes(kids, now);
      ghost var k := SortKid(n.content[i], now, i);
      now := now[i := k];
      i := i + 1;
    }
  }

  method SortMapping(n: YamlNode, ghost s: Shape) returns (ghost t: Shape)
    requires s.node == n && s.Pairs? && Linked(s) && Separate(s)
    modifies Nodes(s)
    ensures t.node == n && Linked(t) && Separate(t) && Nodes(t) == Nodes(s)
    ensures Tree(t) == Y.SortNode(Tree(s))
    decreases s, 0
  {
    OpenMapping(n, s.rows);
    ghost var now := SortPairsInPlace(n, s.rows);
    t := Pairs(n, now);
    CloseMapping(n, s.rows, now);
  }

  method SortPairsInPlace(n: YamlNode, ghost rows: seq<Row>) returns (ghost now: seq<Row>)
    requires n.content == Flat(rows) && KeysFit(rows) && RowsReady(rows) && RowsApart(rows) && n !in AllRowNodes(rows)
    modifies n, AllRowNodes(rows)
    ensures n.content == Flat(SortRows(rows)) && ValuesSorted(SortRows(rows), now) && RowsReady(now)
    decreases rows, 1
  {
    var pairs := PairUp(n, rows);
    assert old(allocated(AllRowNodes(rows)) && RowsReady(rows));
    SortRowsAll(rows);
    SortRowsMembers(rows);
    SortedMapping(rows);
    now := WriteBack(n, SortPairs(pairs), rows, SortRows(rows));
  }

  lemma CloseMapping(n: YamlNode, rows: seq<Row>, now: seq<Row>)
    requires n.kind == MappingNode && n.text == "" && KeysFit(rows)
    requires n.content == Flat(SortRows(rows)) && ValuesSorted(SortRows(rows), now) && RowsReady(now)
    requires RowsApart(rows) && n !in AllRowNodes(rows)
    ensures Linked(Pairs(n, now)) && Separate(Pairs(n, now))
    ensures Nodes(Pairs(n, now)) == Nodes(Pairs(n, rows))
    ensures Tree(Pairs(n, now)) == Y.SortNode(Tree(Pairs(n, rows)))
  {
    ValuesSortedEntries(SortRows(rows), now);
    SortRowsAll(rows);
    SortRowsApart(rows);
    SortedNodes(rows);
    SameNodes(SortRows(rows), now);
    Y.SortCommutes(Entries(rows));
  }

  /** What sorting one row's value must leave. */
  ghost predicate RowSorted(before: Row, after: Row)
  {
    && after.key == before.key && after.value.node == before.value.node
    && RowNodes(after) == RowNodes(before)
    && Tree(after.value) == Y.SortNode(Tree(before.value))
  }

  /** Stores one pair and sorts its value. */
  method PlacePair(n: YamlNode, p: Pair, i: nat, ghost now: seq<Row>) returns (ghost r: Row)
    requires 2 * i + 1 < |n.content| && i < |now| && p.1 == now[i].value.node
    requires RowsReady(now) && RowsApart(now) && n !in AllRowNodes(now)
    modifies n, Nodes(now[i].value)
    ensures n.content == old(n.content)[2 * i := p.0][2 * i + 1 := p.1]
    ensures RowSorted(now[i], r) && RowsReady(now[i := r])
    decreases now[i], 3
  {
    assert Nodes(now[i].value) <= RowNodes(now[i]) <= AllRowNodes(now);
    assert allocated(AllRowNodes(now));
    n.content := n.content[2 * i := p.0][2 * i + 1 := p.1];
    assert RowsReady(now);
    r := SortRowValue(p.1, now, i);
  }

  /** The loop that stores the sorted pairs and sorts each value. */
  method WriteBack(n: YamlNode, pairs: seq<Pair>, ghost rows: seq<Row>, ghost sorted: seq<Row>) returns (ghost now: seq<Row>)
    requires |n.content| == 2 * |pairs| && pairs == Pointers(sorted)
    requires RowsReady(sorted) && RowsApart(sorted) && n !in AllRowNodes(sorted)
    requires forall i :: 0 <= i < |sorted| ==> sorted[i] in rows
    modifies n, AllRowNodes(sorted)
    ensures n.content == Flat(sorted) && ValuesSorted(sorted, now) && RowsReady(now)
    decreases rows, 0
  {
    now := sorted;
    var i := 0;
    while i < |pairs|
      invariant |n.content| == 2 * |pairs| && |now| == |sorted| && i <= |pairs|
      invariant Stored(n.content, pairs, i)
      invariant forall j :: i <= j < |sorted| ==> now[j] == sorted[j]
      invariant forall j :: 0 <= j < i ==> RowSorted(sorted[j], now[j])
      invariant RowsReady(now)
    {
      PointersAt(sorted, i);
      SameNodes(sorted, now);
      assert RowNodes(sorted[i]) <= AllRowNodes(sorted);
      StoredStep(n.content, pairs, i);
      ghost var r := PlacePair(n, pairs[i], i, now);
      now := now[i := r];
      i := i + 1;
    }
    Written(n.content, pairs, sorted);
  }

  /** The first pairs are back in place. */
  ghost predicate Stored(content: seq<YamlNode>, pairs: seq<Pair>, i: nat)
  {
    && |content| == 2 * |pairs| && i <= |pairs|
    && forall j :: 0 <= j < i ==> content[2 * j] == pairs[j].0 && content[2 * j + 1] == pairs[j].1
  }

  lemma StoredStep(content: seq<YamlNode>, pairs: seq<Pair>, i: nat)
    requires Stored(content, pairs, i) && i < |pairs|
    ensures Stored(content[2 * i := pairs[i].0][2 * i + 1 := pairs[i].1], pairs, i + 1)
  {
  }

  lemma Written(content: seq<YamlNode>, pairs: seq<Pair>, rows: seq<Row>)
    requires Stored(content, pairs, |pairs|) && pairs == Pointers(rows)
    ensures content == Flat(rows)
  {
    forall i | 0 <= i < |content| ensures content[i] == Flat(rows)[i] {
      PointersAt(rows, i / 2);
      assert i == 2 * (i / 2) || i == 2 * (i / 2) + 1;
    }
  }

  lemma OpenMapping(n: YamlNode, rows: seq<Row>)
    requires Linked(Pairs(n, rows)) && Separate(Pairs(n, rows))
    ensures RowsReady(rows) && RowsApart(rows) && KeysFit(rows) && n.content == Flat(rows)
    ensures n !in AllRowNodes(rows) && Nodes(Pairs(n, rows)) == {n} + AllRowNodes(rows)
  {
    forall i | 0 <= i < |rows| ensures KindFits(rows[i].key) {
      assert RowLinked(rows[i]) && Linked(rows[i].key);
    }
  }

  lemma SameNodes(before: seq<Row>, after: seq<Row>)
    requires |after| == |before|
    requires forall j :: 0 <= j < |before| ==> RowNodes(after[j]) == RowNodes(before[j])
    ensures AllRowNodes(after) == AllRowNodes(before)
    ensures RowsApart(before) ==> RowsApart(after)
  {
  }

  lemma SortedAt(rows: seq<Row>, i: nat) returns (k: nat)
    requires i < |SortRows(rows)|
    ensures k < |rows| && rows[k] == SortRows(rows)[i]
  {
    SortRowsMembers(rows);
    assert SortRows(rows)[i] in multiset(SortRows(rows));
    k :| 0 <= k < |rows| && rows[k] == SortRows(rows)[i];
  }

  lemma SortedNodes(rows: seq<Row>)
    ensures AllRowNodes(SortRows(rows)) == AllRowNodes(rows)
  {
    SortRowsMembers(rows);
    var sorted := SortRows(rows);
    forall x | x in AllRowNodes(rows) ensures x in AllRowNodes(sorted) {
      var i :| 0 <= i < |rows| && x in RowNodes(rows[i]);
      assert rows[i] in multiset(rows);
      var k :| 0 <= k < |sorted| && sorted[k] == rows[i];
    }
    forall x | x in AllRowNodes(sorted) ensures x in AllRowNodes(rows) {
      var i :| 0 <= i < |sorted| && x in RowNodes(sorted[i]);
      var k := SortedAt(rows, i);
    }
  }

  /** Reordering the rows of a mapping keeps what is known about each. */
  lemma SortedMapping(rows: seq<Row>)
    requires RowsReady(rows) && RowsApart(rows)
    ensures RowsReady(SortRows(rows)) && RowsApart(SortRows(rows))
    ensures forall i :: 0 <= i < |SortRows(rows)| ==> SortRows(rows)[i] in rows
    ensures AllRowNodes(SortRows(rows)) == AllRowNodes(rows)
  {
    SortRowsApart(rows);
    SortedNodes(rows);
    var sorted := SortRows(rows);
    forall i | 0 <= i < |sorted| ensures sorted[i] in rows && RowLinked(sorted[i]) && RowSeparate(sorted[i]) {
      var k := SortedAt(rows, i);
    }
  }

  /** The keys and values of a mapping node, taken in turn. */
  method PairUp(n: YamlNode, ghost rows: seq<Row>) returns (pairs: seq<Pair>)
    requires n.content == Flat(rows)
    ensures pairs == Pointers(rows)
  {
    pairs := [];
    var i := 0;
    while i < |n.content|
      invariant i % 2 == 0 && i <= 2 * |rows|
      invariant pairs == Pointers(rows)[..i / 2]
    {
      PointersAt(rows, i / 2);
      pairs := pairs + [(n.content[i], n.content[i + 1])];
      i := i + 2;
    }
  }
}
