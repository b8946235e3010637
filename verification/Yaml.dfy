/** The canonical form of YAML trees: mapping keys sorted at every level. */
module Yaml {
  import opened Text

  datatype Node =
    | Scalar(tag: string, text: string)
    | Alias(name: string)
    | Mapping(entries: seq<Entry>)
    | Sequence(items: seq<Node>)
    | Document(items: seq<Node>)

  datatype Entry = Entry(key: Node, value: Node)

  /** `Value` of a YAML node: the text of a scalar, the anchor an alias refers to. */
  function TextOf(n: Node): string
  {
    if n.Scalar? then n.text else if n.Alias? then n.name else ""
  }

  /** What mapping entries are sorted by. */
  function Label(e: Entry): string
  {
    TextOf(e.key)
  }

  // ---------------------------------------------------------------------------------------
  // Sorting entries by key
  // ---------------------------------------------------------------------------------------

  function InsertEntry(e: Entry, es: seq<Entry>): seq<Entry>
  {
    if es == [] || !Less(Label(es[0]), Label(e)) then [e] + es else [es[0]] + InsertEntry(e, es[1..])
  }

  function SortByKey(es: seq<Entry>): seq<Entry>
  {
    if es == [] then [] else InsertEntry(es[0], SortByKey(es[1..]))
  }

  /** No two entries have the same key text. */
  ghost predicate KeysDistinct(es: seq<Entry>)
  {
    forall i, j :: 0 <= i < j < |es| ==> Label(es[i]) != Label(es[j])
  }

  /** No entry has a smaller key than one before it. */
  ghost predicate KeysSorted(es: seq<Entry>)
  {
    forall i, j :: 0 <= i < j < |es| ==> !Less(Label(es[j]), Label(es[i]))
  }

  lemma {:induction false} InsertPermutes(e: Entry, es: seq<Entry>)
    ensures multiset(InsertEntry(e, es)) == multiset(es) + multiset{e}
  {
    if es != [] && Less(Label(es[0]), Label(e)) {
      InsertPermutes(e, es[1..]);
      assert es == [es[0]] + es[1..];
    }
  }

  lemma InsertMembers(e: Entry, es: seq<Entry>)
    ensures forall x :: x in InsertEntry(e, es) <==> x == e || x in es
  {
    InsertPermutes(e, es);
    forall x ensures x in InsertEntry(e, es) <==> x == e || x in es {
      assert x in InsertEntry(e, es) <==> x in multiset(InsertEntry(e, es));
    }
  }

  lemma NotLessTrans(a: string, b: string, c: string)
    requires !Less(b, a) && !Less(c, b)
    ensures !Less(c, a)
  {
    LessTotal(a, b);
    LessTotal(b, c);
    if Less(a, b) && Less(b, c) {
      LessTransitive(a, b, c);
    }
    if Less(c, a) {
      LessAsymmetric(c, a);
    }
  }

  lemma {:induction false} InsertSorts(e: Entry, es: seq<Entry>)
    requires KeysSorted(es)
    ensures KeysSorted(InsertEntry(e, es))
  {
    if es == [] {
    } else if !Less(Label(es[0]), Label(e)) {
      forall j | 0 <= j < |es| ensures !Less(Label(es[j]), Label(e)) {
        if j > 0 {
          NotLessTrans(Label(e), Label(es[0]), Label(es[j]));
        }
      }
    } else {
      InsertSorts(e, es[1..]);
      InsertMembers(e, es[1..]);
      var t := InsertEntry(e, es[1..]);
      forall j | 0 <= j < |t| ensures !Less(Label(t[j]), Label(es[0])) {
        assert t[j] == e || t[j] in es[1..];
        LessAsymmetric(Label(es[0]), Label(e));
      }
    }
  }

  lemma {:induction false} SortByKeyWorks(es: seq<Entry>)
    ensures KeysSorted(SortByKey(es)) && multiset(SortByKey(es)) == multiset(es)
  {
    if es != [] {
      SortByKeyWorks(es[1..]);
      InsertSorts(es[0], SortByKey(es[1..]));
      InsertPermutes(es[0], SortByKey(es[1..]));
      assert es == [es[0]] + es[1..];
    }
  }

  lemma SortMembers(es: seq<Entry>)
    ensures forall x :: x in SortByKey(es) <==> x in es
  {
    SortByKeyWorks(es);
    forall x ensures x in SortByKey(es) <==> x in es {
      assert x in SortByKey(es) <==> x in multiset(SortByKey(es));
      assert x in es <==> x in multiset(es);
    }
  }

  lemma {:induction false} InsertDistinct(e: Entry, es: seq<Entry>)
    requires KeysDistinct([e] + es)
    ensures KeysDistinct(InsertEntry(e, es))
  {
    var all := [e] + es;
    assert forall j :: 1 <= j < |all| ==> Label(all[0]) != Label(all[j]) && all[j] == es[j - 1];
    if es != [] && Less(Label(es[0]), Label(e)) {
      var rest := es[1..];
      assert forall j :: 0 <= j < |rest| ==> all[j + 2] == rest[j];
      assert KeysDistinct([e] + rest);
      InsertDistinct(e, rest);
      InsertMembers(e, rest);
      var t := InsertEntry(e, rest);
      forall j | 0 <= j < |t| ensures Label(t[j]) != Label(es[0]) {
        assert t[j] in t && all[1] == es[0];
        if t[j] != e {
          var i :| 0 <= i < |rest| && rest[i] == t[j];
          assert all[i + 2] == t[j];
        }
      }
    }
  }

  lemma {:induction false} SortDistinct(es: seq<Entry>)
    requires KeysDistinct(es)
    ensures KeysDistinct(SortByKey(es))
  {
    if es != [] {
      var t := SortByKey(es[1..]);
      SortDistinct(es[1..]);
      SortMembers(es[1..]);
      forall j | 0 <= j < |t| ensures Label(t[j]) != Label(es[0]) {
        assert t[j] in es[1..];
      }
      InsertDistinct(es[0], t);
    }
  }

  /** With distinct keys there is only one sorted arrangement, so it does not matter which sorting
      algorithm is used or whether it is stable. */
  lemma {:induction false} SortedUnique(x: seq<Entry>, y: seq<Entry>)
    requires KeysDistinct(x) && KeysSorted(x) && KeysDistinct(y) && KeysSorted(y)
    requires forall e :: e in x <==> e in y
    ensures x == y
  {
    EmptyTogether(x, y);
    if x != [] {
      HeadsAgree(x, y);
      TailMembers(x);
      TailMembers(y);
      SortedUnique(x[1..], y[1..]);
      assert x == [x[0]] + x[1..] && y == [y[0]] + y[1..];
    }
  }

  lemma EmptyTogether(x: seq<Entry>, y: seq<Entry>)
    requires forall e :: e in x <==> e in y
    ensures x == [] <==> y == []
  {
    if x != [] {
      assert x[0] in x;
    }
    if y != [] {
      assert y[0] in y;
    }
  }

  lemma HeadsAgree(x: seq<Entry>, y: seq<Entry>)
    requires KeysDistinct(x) && KeysSorted(x) && KeysDistinct(y) && KeysSorted(y)
    requires x != [] && y != []
    requires forall e :: e in x <==> e in y
    ensures x[0] == y[0]
  {
    assert x[0] in y && y[0] in x;
    var i :| 0 <= i < |y| && y[i] == x[0];
    var j :| 0 <= j < |x| && x[j] == y[0];
    LessTotal(Label(x[0]), Label(y[0]));
  }

  lemma TailMembers(x: seq<Entry>)
    requires KeysDistinct(x) && x != []
    ensures forall e :: e in x[1..] <==> e in x && e != x[0]
  {
    forall e ensures e in x[1..] <==> e in x && e != x[0] {
      assert x == [x[0]] + x[1..];
      assert forall j :: 0 <= j < |x[1..]| ==> x[1..][j] == x[j + 1];
    }
  }

  // ---------------------------------------------------------------------------------------
  // The canonical form
  // ---------------------------------------------------------------------------------------

  /** The tree that `sortYAMLNode` leaves behind. Keys are not descended into. */
  function SortNode(n: Node): Node
    decreases n
  {
    match n
    case Scalar(_, _) => n
    case Alias(_) => n
    case Mapping(es) => Mapping(SortByKey(SortValues(es)))
    case Sequence(items) => Sequence(SortAll(items))
    case Document(items) => Document(SortAll(items))
  }

  function SortAll(ns: seq<Node>): (r: seq<Node>)
    ensures |r| == |ns|
    decreases ns
  {
    if ns == [] then [] else [SortNode(ns[0])] + SortAll(ns[1..])
  }

  function SortValues(es: seq<Entry>): (r: seq<Entry>)
    ensures |r| == |es|
    decreases es
  {
    if es == [] then [] else [SortEntry(es[0])] + SortValues(es[1..])
  }

  function SortEntry(e: Entry): Entry
    decreases e
  {
    Entry(e.key, SortNode(e.value))
  }

  lemma {:induction false} SortAllAt(ns: seq<Node>, i: nat)
    requires i < |ns|
    ensures SortAll(ns)[i] == SortNode(ns[i])
  {
    if i > 0 {
      SortAllAt(ns[1..], i - 1);
    }
  }

  lemma {:induction false} SortValuesAt(es: seq<Entry>, i: nat)
    requires i < |es|
    ensures SortValues(es)[i] == SortEntry(es[i])
  {
    if i > 0 {
      SortValuesAt(es[1..], i - 1);
    }
  }

  /** Every mapping met on the way down has distinct key texts. */
  ghost predicate Distinct(n: Node)
    decreases n
  {
    match n
    case Scalar(_, _) => true
    case Alias(_) => true
    case Mapping(es) => KeysDistinct(es) && DistinctValues(es)
    case Sequence(items) => DistinctAll(items)
    case Document(items) => DistinctAll(items)
  }

  ghost predicate DistinctAll(ns: seq<Node>)
    decreases ns
  {
    ns == [] || (Distinct(ns[0]) && DistinctAll(ns[1..]))
  }

  ghost predicate DistinctValues(es: seq<Entry>)
    decreases es
  {
    es == [] || (DistinctValue(es[0]) && DistinctValues(es[1..]))
  }

  ghost predicate DistinctValue(e: Entry)
    decreases e
  {
    Distinct(e.value)
  }

  lemma {:induction false} DistinctValueAt(es: seq<Entry>, i: nat)
    requires DistinctValues(es) && i < |es|
    ensures Distinct(es[i].value)
  {
    if i > 0 {
      DistinctValueAt(es[1..], i - 1);
    }
  }

  lemma {:induction false} InsertCommutes(e: Entry, es: seq<Entry>)
    ensures SortValues(InsertEntry(e, es)) == InsertEntry(SortEntry(e), SortValues(es))
  {
    if es != [] && Less(Label(es[0]), Label(e)) {
      InsertCommutes(e, es[1..]);
    } else {
      assert ([e] + es)[1..] == es;
    }
  }

  /** It does not matter whether entries are put in order before or after their values are sorted. */
  lemma {:induction false} SortCommutes(es: seq<Entry>)
    ensures SortValues(SortByKey(es)) == SortByKey(SortValues(es))
  {
    if es != [] {
      SortCommutes(es[1..]);
      InsertCommutes(es[0], SortByKey(es[1..]));
    }
  }

  // ---------------------------------------------------------------------------------------
  // Meaning
  // ---------------------------------------------------------------------------------------

  /** A tree as nested unordered maps and ordered lists. */
  datatype Value =
    | Atom(tag: string, text: string)
    | Reference(name: string)
    | Table(rows: map<Node, Value>)
    | List(items: seq<Value>)
    | Root(items: seq<Value>)

  function Meaning(n: Node): Value
    decreases n
  {
    match n
    case Scalar(tag, text) => Atom(tag, text)
    case Alias(name) => Reference(name)
    case Mapping(es) => Table(Rows(es))
    case Sequence(items) => List(MeaningAll(items))
    case Document(items) => Root(MeaningAll(items))
  }

  function MeaningAll(ns: seq<Node>): (r: seq<Value>)
    ensures |r| == |ns|
    decreases ns
  {
    if ns == [] then [] else [Meaning(ns[0])] + MeaningAll(ns[1..])
  }

  function Rows(es: seq<Entry>): map<Node, Value>
    decreases es
  {
    if es == [] then map[] else Rows(es[1..])[es[0].key := MeaningOf(es[0])]
  }

  function MeaningOf(e: Entry): Value
    decreases e
  {
    Meaning(e.value)
  }

  lemma {:induction false} RowsKeys(es: seq<Entry>)
    ensures forall k :: k in Rows(es) <==> exists i :: 0 <= i < |es| && es[i].key == k
  {
    if es != [] {
      RowsKeys(es[1..]);
      forall k ensures k in Rows(es) <==> exists i :: 0 <= i < |es| && es[i].key == k {
        if i :| 0 <= i < |es[1..]| && es[1..][i].key == k {
          assert es[i + 1].key == k;
        }
        if i :| 0 <= i < |es| && es[i].key == k {
          assert i > 0 ==> es[1..][i - 1].key == k;
        }
      }
    }
  }

  lemma {:induction false} RowsAt(es: seq<Entry>, i: nat)
    requires KeysDistinct(es) && i < |es|
    ensures es[i].key in Rows(es) && Rows(es)[es[i].key] == Meaning(es[i].value)
  {
    if i > 0 {
      RowsAt(es[1..], i - 1);
      assert Label(es[0]) != Label(es[i]);
    }
  }

  lemma {:induction false} RowsOfInsert(e: Entry, es: seq<Entry>)
    requires KeysDistinct([e] + es)
    ensures Rows(InsertEntry(e, es)) == Rows(es)[e.key := Meaning(e.value)]
  {
    if es != [] && Less(Label(es[0]), Label(e)) {
      var all, rest := [e] + es, es[1..];
      assert forall j :: 0 <= j < |rest| ==> all[j + 2] == rest[j];
      assert Label(all[0]) != Label(all[1]);
      RowsOfInsert(e, rest);
    } else {
      assert ([e] + es)[1..] == es;
    }
  }

  lemma {:induction false} RowsOfSorted(es: seq<Entry>)
    requires KeysDistinct(es)
    ensures Rows(SortByKey(es)) == Rows(es)
  {
    if es != [] {
      RowsOfSorted(es[1..]);
      SortMembers(es[1..]);
      SortDistinct(es[1..]);
      var t := SortByKey(es[1..]);
      forall j | 0 <= j < |t| ensures Label(t[j]) != Label(es[0]) {
        assert t[j] in es[1..];
      }
      RowsOfInsert(es[0], t);
    }
  }

  lemma ValuesKeepLabels(es: seq<Entry>)
    requires KeysDistinct(es)
    ensures KeysDistinct(SortValues(es))
  {
    forall i | 0 <= i < |es| ensures SortValues(es)[i].key == es[i].key {
      SortValuesAt(es, i);
    }
  }

  /** Sorting keeps the meaning of every tree with distinct keys. */
  lemma {:induction false} MeaningKept(n: Node)
    requires Distinct(n)
    ensures Meaning(SortNode(n)) == Meaning(n)
    decreases n
  {
    match n
    case Scalar(_, _) =>
    case Alias(_) =>
    case Mapping(es) =>
      RowsKept(es);
      ValuesKeepLabels(es);
      RowsOfSorted(SortValues(es));
    case Sequence(items) => MeaningAllKept(items);
    case Document(items) => MeaningAllKept(items);
  }

  lemma {:induction false} MeaningAllKept(ns: seq<Node>)
    requires DistinctAll(ns)
    ensures MeaningAll(SortAll(ns)) == MeaningAll(ns)
    decreases ns
  {
    if ns != [] {
      MeaningKept(ns[0]);
      MeaningAllKept(ns[1..]);
    }
  }

  lemma {:induction false} RowsKept(es: seq<Entry>)
    requires DistinctValues(es)
    ensures Rows(SortValues(es)) == Rows(es)
    decreases es
  {
    if es != [] {
      RowKept(es[0]);
      RowsKept(es[1..]);
    }
  }

  lemma {:induction false} RowKept(e: Entry)
    requires DistinctValue(e)
    ensures MeaningOf(SortEntry(e)) == MeaningOf(e)
    decreases e
  {
    MeaningKept(e.value);
  }

  // ---------------------------------------------------------------------------------------
  // Sorted at every level, and a fixed point
  // ---------------------------------------------------------------------------------------

  ghost predicate SortedThroughout(n: Node)
    decreases n
  {
    match n
    case Scalar(_, _) => true
    case Alias(_) => true
    case Mapping(es) => KeysSorted(es) && forall e :: e in es ==> SortedThroughout(e.value)
    case Sequence(items) => forall c :: c in items ==> SortedThroughout(c)
    case Document(items) => forall c :: c in items ==> SortedThroughout(c)
  }

  /** Every mapping, at every level, comes out sorted; even with repeated keys. */
  lemma {:induction false} SortsEveryLevel(n: Node)
    ensures SortedThroughout(SortNode(n))
    decreases n
  {
    match n
    case Scalar(_, _) =>
    case Alias(_) =>
    case Mapping(es) =>
      SortByKeyWorks(SortValues(es));
      SortMembers(SortValues(es));
      forall i | 0 <= i < |es| ensures SortedThroughout(SortValues(es)[i].value) {
        SortValuesAt(es, i);
        SortsEveryLevel(es[i].value);
      }
    case Sequence(items) => SortsAll(items);
    case Document(items) => SortsAll(items);
  }

  lemma {:induction false} SortsAll(ns: seq<Node>)
    ensures forall c :: c in SortAll(ns) ==> SortedThroughout(c)
    decreases ns
  {
    if ns != [] {
      SortsEveryLevel(ns[0]);
      SortsAll(ns[1..]);
    }
  }

  lemma {:induction false} SortedIsFixed(es: seq<Entry>)
    requires KeysSorted(es)
    ensures SortByKey(es) == es
  {
    if es != [] {
      SortedIsFixed(es[1..]);
      assert |es| > 1 ==> !Less(Label(es[1]), Label(es[0]));
      assert es == [es[0]] + es[1..];
    }
  }

  /** A tree that is sorted throughout is left as it is. */
  lemma {:induction false} FixedWhenSorted(n: Node)
    requires SortedThroughout(n)
    ensures SortNode(n) == n
    decreases n
  {
    match n
    case Scalar(_, _) =>
    case Alias(_) =>
    case Mapping(es) =>
      forall i | 0 <= i < |es| ensures SortValues(es)[i] == es[i] {
        SortValuesAt(es, i);
        FixedWhenSorted(es[i].value);
      }
      assert SortValues(es) == es;
      SortedIsFixed(es);
    case Sequence(items) => FixedAll(items);
    case Document(items) => FixedAll(items);
  }

  lemma {:induction false} FixedAll(ns: seq<Node>)
    requires forall c :: c in ns ==> SortedThroughout(c)
    ensures SortAll(ns) == ns
    decreases ns
  {
    if ns != [] {
      FixedWhenSorted(ns[0]);
      FixedAll(ns[1..]);
      assert ns == [ns[0]] + ns[1..];
    }
  }

  /** Sorting twice is sorting once, for every tree. */
  lemma Idempotent(n: Node)
    ensures SortNode(SortNode(n)) == SortNode(n)
  {
    SortsEveryLevel(n);
    FixedWhenSorted(SortNode(n));
  }

  // ---------------------------------------------------------------------------------------
  // The canonical form depends on the meaning alone
  // ---------------------------------------------------------------------------------------

  lemma {:induction false} MeaningAllAt(ns: seq<Node>, i: nat)
    requires i < |ns|
    ensures MeaningAll(ns)[i] == Meaning(ns[i])
  {
    if i > 0 {
      MeaningAllAt(ns[1..], i - 1);
    }
  }

  lemma {:induction false} SameMeaningSameForm(a: Node, b: Node)
    requires Distinct(a) && Distinct(b) && Meaning(a) == Meaning(b)
    ensures SortNode(a) == SortNode(b)
    decreases a
  {
    match a
    case Scalar(_, _) =>
    case Alias(_) =>
    case Mapping(es) =>
      var fs := b.entries;
      ValuesKeepLabels(es);
      ValuesKeepLabels(fs);
      forall i | 0 <= i < |es| ensures SortValues(es)[i] in SortValues(fs) {
        var j := Counterpart(es, fs, i);
        DistinctValueAt(es, i);
        DistinctValueAt(fs, j);
        SameMeaningSameForm(es[i].value, fs[j].value);
        SortValuesAt(es, i);
        SortValuesAt(fs, j);
      }
      forall j | 0 <= j < |fs| ensures SortValues(fs)[j] in SortValues(es) {
        var i := Counterpart(fs, es, j);
        DistinctValueAt(es, i);
        DistinctValueAt(fs, j);
        SameMeaningSameForm(es[i].value, fs[j].value);
        SortValuesAt(es, i);
        SortValuesAt(fs, j);
      }
      SortedFormsAgree(SortValues(es), SortValues(fs));
    case Sequence(items) => SameMeaningAll(items, b.items);
    case Document(items) => SameMeaningAll(items, b.items);
  }

  /** The entry of `fs` with the key of entry `i` of `es`. */
  lemma Counterpart(es: seq<Entry>, fs: seq<Entry>, i: nat) returns (j: nat)
    requires KeysDistinct(es) && KeysDistinct(fs) && Rows(es) == Rows(fs) && i < |es|
    ensures j < |fs| && fs[j].key == es[i].key && Meaning(fs[j].value) == Meaning(es[i].value)
  {
    RowsAt(es, i);
    RowsKeys(fs);
    j :| 0 <= j < |fs| && fs[j].key == es[i].key;
    RowsAt(fs, j);
  }

  lemma SortedFormsAgree(x: seq<Entry>, y: seq<Entry>)
    requires KeysDistinct(x) && KeysDistinct(y)
    requires forall i :: 0 <= i < |x| ==> x[i] in y
    requires forall j :: 0 <= j < |y| ==> y[j] in x
    ensures SortByKey(x) == SortByKey(y)
  {
    SortByKeyWorks(x);
    SortByKeyWorks(y);
    SortMembers(x);
    SortMembers(y);
    SortDistinct(x);
    SortDistinct(y);
    SortedUnique(SortByKey(x), SortByKey(y));
  }

  lemma {:induction false} SameMeaningAll(x: seq<Node>, y: seq<Node>)
    requires DistinctAll(x) && DistinctAll(y) && MeaningAll(x) == MeaningAll(y)
    ensures SortAll(x) == SortAll(y)
    decreases x
  {
    assert |x| == |y|;
    if x != [] {
      MeaningAllAt(x, 0);
      MeaningAllAt(y, 0);
      SameMeaningSameForm(x[0], y[0]);
      assert MeaningAll(x)[1..] == MeaningAll(x[1..]) && MeaningAll(y)[1..] == MeaningAll(y[1..]);
      SameMeaningAll(x[1..], y[1..]);
    }
  }

  /** Two trees with distinct keys get the same canonical form exactly when they mean the same: the
      output does not depend on the order in which a map was walked, and distinguishes everything
      else. */
  lemma CanonicalIff(a: Node, b: Node)
    requires Distinct(a) && Distinct(b)
    ensures SortNode(a) == SortNode(b) <==> Meaning(a) == Meaning(b)
  {
    MeaningKept(a);
    MeaningKept(b);
    if Meaning(a) == Meaning(b) {
      SameMeaningSameForm(a, b);
    }
  }

  // ---------------------------------------------------------------------------------------
  // Any sorting algorithm
  // ---------------------------------------------------------------------------------------

  /** A tree that sorting may leave behind when entries with equal key texts may come out in any order. */
  ghost predicate MaySort(n: Node, m: Node)
    decreases n
  {
    match n
    case Scalar(_, _) => m == n
    case Alias(_) => m == n
    case Mapping(es) => m.Mapping? && exists vs :: MaySortValues(es, vs) && KeysSorted(m.entries) && multiset(m.entries) == multiset(vs)
    case Sequence(items) => m.Sequence? && MaySortAll(items, m.items)
    case Document(items) => m.Document? && MaySortAll(items, m.items)
  }

  ghost predicate MaySortAll(ns: seq<Node>, ms: seq<Node>)
    decreases ns
  {
    |ms| == |ns| && (ns == [] || (MaySort(ns[0], ms[0]) && MaySortAll(ns[1..], ms[1..])))
  }

  ghost predicate MaySortValues(es: seq<Entry>, vs: seq<Entry>)
    decreases es
  {
    |vs| == |es| && (es == [] || (MaySortEntry(es[0], vs[0]) && MaySortValues(es[1..], vs[1..])))
  }

  ghost predicate MaySortEntry(e: Entry, v: Entry)
    decreases e
  {
    v.key == e.key && MaySort(e.value, v.value)
  }

  /** The stable sort is one of the possibilities, for every tree. */
  lemma {:induction false} StableIsPossible(n: Node)
    ensures MaySort(n, SortNode(n))
    decreases n
  {
    match n
    case Scalar(_, _) =>
    case Alias(_) =>
    case Mapping(es) =>
      StableValues(es);
      SortByKeyWorks(SortValues(es));
      assert MaySortValues(es, SortValues(es));
    case Sequence(items) => StableAll(items);
    case Document(items) => StableAll(items);
  }

  lemma {:induction false} StableAll(ns: seq<Node>)
    ensures MaySortAll(ns, SortAll(ns))
    decreases ns
  {
    if ns != [] {
      StableIsPossible(ns[0]);
      StableAll(ns[1..]);
    }
  }

  lemma {:induction false} StableValues(es: seq<Entry>)
    ensures MaySortValues(es, SortValues(es))
    decreases es
  {
    if es != [] {
      StableEntry(es[0]);
      StableValues(es[1..]);
    }
  }

  lemma {:induction false} StableEntry(e: Entry)
    ensures MaySortEntry(e, SortEntry(e))
    decreases e
  {
    StableIsPossible(e.value);
  }

  /** With distinct keys it is the only one: whatever algorithm sorts the entries, the result is the canonical form. */
  lemma {:induction false} AnySortAgrees(n: Node, m: Node)
    requires Distinct(n) && MaySort(n, m)
    ensures m == SortNode(n)
    decreases n
  {
    match n
    case Scalar(_, _) =>
    case Alias(_) =>
    case Mapping(es) =>
      var vs :| MaySortValues(es, vs) && KeysSorted(m.entries) && multiset(m.entries) == multiset(vs);
      AnyValuesAgree(es, vs);
      SortedArrangement(vs, m.entries) by {
        ValuesKeepLabels(es);
      }
    case Sequence(items) => AnyAllAgree(items, m.items);
    case Document(items) => AnyAllAgree(items, m.items);
  }

  lemma {:induction false} AnyAllAgree(ns: seq<Node>, ms: seq<Node>)
    requires DistinctAll(ns) && MaySortAll(ns, ms)
    ensures ms == SortAll(ns)
    decreases ns
  {
    if ns != [] {
      AnySortAgrees(ns[0], ms[0]);
      AnyAllAgree(ns[1..], ms[1..]);
      assert ms == [ms[0]] + ms[1..];
    }
  }

  lemma {:induction false} AnyValuesAgree(es: seq<Entry>, vs: seq<Entry>)
    requires DistinctValues(es) && MaySortValues(es, vs)
    ensures vs == SortValues(es)
    decreases es
  {
    if es != [] {
      AnyEntryAgrees(es[0], vs[0]);
      AnyValuesAgree(es[1..], vs[1..]);
      assert vs == [vs[0]] + vs[1..];
    }
  }

  lemma {:induction false} AnyEntryAgrees(e: Entry, v: Entry)
    requires DistinctValue(e) && MaySortEntry(e, v)
    ensures v == SortEntry(e)
    decreases e
  {
    AnySortAgrees(e.value, v.value);
  }

  /** A sorted arrangement of entries with distinct keys is the one the insertion sort finds. */
  lemma SortedArrangement(vs: seq<Entry>, ws: seq<Entry>)
    requires KeysDistinct(vs) && KeysSorted(ws) && multiset(ws) == multiset(vs)
    ensures ws == SortByKey(vs)
  {
    SortByKeyWorks(vs);
    SortDistinct(vs);
    PermutedDistinct(vs, ws);
    forall e ensures e in ws <==> e in SortByKey(vs) {
      assert e in ws <==> e in multiset(ws);
      assert e in SortByKey(vs) <==> e in multiset(SortByKey(vs));
    }
    SortedUnique(ws, SortByKey(vs));
  }

  lemma Once(x: seq<Entry>, e: Entry)
    requires KeysDistinct(x)
    ensures multiset(x)[e] <= 1
  {
    if e in x {
      var a :| 0 <= a < |x| && x[a] == e;
      assert x == x[..a] + [x[a]] + x[a + 1..];
      assert e !in x[..a] && e !in x[a + 1..];
    }
  }

  lemma Twice(y: seq<Entry>, i: nat, j: nat)
    requires i < j < |y|
    ensures multiset(y)[y[i]] >= if y[j] == y[i] then 2 else 1
  {
    assert y == y[..j] + [y[j]] + y[j + 1..];
    assert y[..j][i] == y[i];
  }

  lemma PermutedDistinct(x: seq<Entry>, y: seq<Entry>)
    requires multiset(x) == multiset(y) && KeysDistinct(x)
    ensures KeysDistinct(y)
  {
    forall i, j | 0 <= i < j < |y| ensures Label(y[i]) != Label(y[j]) {
      Once(x, y[i]);
      Twice(y, i, j);
      assert y[i] in multiset(x) && y[j] in multiset(x);
      var a :| 0 <= a < |x| && x[a] == y[i];
      var b :| 0 <= b < |x| && x[b] == y[j];
    }
  }

  lemma {:induction false} DistinctKept(n: Node)
    requires Distinct(n)
    ensures Distinct(SortNode(n))
    decreases n
  {
    match n
    case Scalar(_, _) =>
    case Alias(_) =>
    case Mapping(es) =>
      ValuesKeepLabels(es);
      SortDistinct(SortValues(es));
      SortMembers(SortValues(es));
      DistinctValuesKept(es);
      ValuesFromMembers(SortByKey(SortValues(es)), SortValues(es));
    case Sequence(items) => DistinctAllKept(items);
    case Document(items) => DistinctAllKept(items);
  }

  lemma {:induction false} DistinctAllKept(ns: seq<Node>)
    requires DistinctAll(ns)
    ensures DistinctAll(SortAll(ns))
    decreases ns
  {
    if ns != [] {
      DistinctKept(ns[0]);
      DistinctAllKept(ns[1..]);
    }
  }

  lemma {:induction false} DistinctValuesKept(es: seq<Entry>)
    requires DistinctValues(es)
    ensures DistinctValues(SortValues(es))
    decreases es
  {
    if es != [] {
      DistinctValueKept(es[0]);
      DistinctValuesKept(es[1..]);
    }
  }

  lemma {:induction false} DistinctValueKept(e: Entry)
    requires DistinctValue(e)
    ensures DistinctValue(SortEntry(e))
    decreases e
  {
    DistinctKept(e.value);
  }

  lemma {:induction false} ValuesFromMembers(x: seq<Entry>, y: seq<Entry>)
    requires DistinctValues(y) && forall e :: e in x ==> e in y
    ensures DistinctValues(x)
  {
    if x != [] {
      assert x[0] in x;
      var i :| 0 <= i < |y| && y[i] == x[0];
      DistinctValueAt(y, i);
      ValuesFromMembers(x[1..], y);
    }
  }

  /** Sorting again, by whatever algorithm, changes nothing when keys are distinct. */
  lemma AnySortIdempotent(n: Node, m: Node, k: Node)
    requires Distinct(n) && MaySort(n, m) && MaySort(m, k)
    ensures k == m
  {
    AnySortAgrees(n, m);
    DistinctKept(n);
    AnySortAgrees(m, k);
    Idempotent(n);
  }

  /** With repeated keys an algorithm that is not stable may change the tree again. */
  lemma RepeatedKeysMaySwap(key: Node, x: Node, y: Node)
    requires SortedThroughout(x) && SortedThroughout(y)
    ensures MaySort(Mapping([Entry(key, x), Entry(key, y)]), Mapping([Entry(key, y), Entry(key, x)]))
  {
    var es, fs := [Entry(key, x), Entry(key, y)], [Entry(key, y), Entry(key, x)];
    PairPossible(es);
    LessIrreflexive(TextOf(key));
    assert KeysSorted(fs) && multiset(fs) == multiset(es);
  }

  lemma PairPossible(es: seq<Entry>)
    requires |es| == 2 && SortedThroughout(es[0].value) && SortedThroughout(es[1].value)
    ensures MaySortValues(es, es)
  {
    FixedWhenSorted(es[0].value);
    FixedWhenSorted(es[1].value);
    SortValuesAt(es, 0);
    SortValuesAt(es, 1);
    assert SortValues(es) == es;
    StableValues(es);
  }
}
