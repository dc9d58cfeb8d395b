/**
 The canonical request text (src/domain/idempotency.ts): sorted object keys, exact strings and
 arrays, cycles refused. Two requests have one text exactly when they differ only in key order.
 */
module CanonicalJson {
  import opened Json
  import opened Lists
  import opened Prelude
  import Utf8

  // ---------------------------------------------------------------- the canonical text of a value

  function NameOf(field: Field): string { field.name }

  /** The same value with the keys of every object in byte order. */
  function Normal(v: Value): Value {
    match v
    case List(items) => List(NormalItems(items))
    case Object(fields) => Object(SortBy(NameOf, NormalFields(fields)))
    case _ => v
  }

  function NormalItems(items: seq<Value>): (r: seq<Value>)
    ensures |r| == |items| && forall i :: 0 <= i < |items| ==> r[i] == Normal(items[i])
  {
    if items == [] then [] else [Normal(items[0])] + NormalItems(items[1..])
  }

  function NormalFields(fields: seq<Field>): (r: seq<Field>)
    ensures |r| == |fields|
    ensures forall i :: 0 <= i < |fields| ==> r[i] == Field(fields[i].name, Normal(fields[i].value))
  {
    if fields == [] then [] else [Field(fields[0].name, Normal(fields[0].value))] + NormalFields(fields[1..])
  }

  function Canonical(v: Value): string { Print(Normal(v)) }

  /** Objects own each key once. */
  predicate DistinctNames(v: Value) {
    match v
    case List(items) => forall i :: 0 <= i < |items| ==> DistinctNames(items[i])
    case Object(fields) => DistinctKeys(NameOf, fields) && forall i :: 0 <= i < |fields| ==> DistinctNames(fields[i].value)
    case _ => true
  }

  /** Equal up to the order in which objects list their keys. */
  predicate Same(v: Value, w: Value)
    decreases v
  {
    match v
    case List(items) =>
      w.List? && |items| == |w.items| && forall i :: 0 <= i < |items| ==> Same(items[i], w.items[i])
    case Object(fields) =>
      && w.Object? && |fields| == |w.fields|
      && forall i :: 0 <= i < |fields| ==> HasSame(fields[i], w.fields)
    case _ => v == w
  }

  predicate HasSame(field: Field, others: seq<Field>)
    decreases field
  {
    exists j :: 0 <= j < |others| && field.name == others[j].name && Same(field.value, others[j].value)
  }

  lemma NormalFieldsSame(f: seq<Field>, g: seq<Field>)
    requires DistinctKeys(NameOf, f) && DistinctKeys(NameOf, g) && |f| == |g|
    requires forall i :: 0 <= i < |f| ==> NormalFields(f)[i] in NormalFields(g)
    ensures SortBy(NameOf, NormalFields(f)) == SortBy(NameOf, NormalFields(g))
  {
    var a, b := NormalFields(f), NormalFields(g);
    assert DistinctKeys(NameOf, a) && DistinctKeys(NameOf, b) by {
      assert forall i :: 0 <= i < |f| ==> NameOf(a[i]) == NameOf(f[i]);
      assert forall i :: 0 <= i < |g| ==> NameOf(b[i]) == NameOf(g[i]);
    }
    assert NoRepeats(a) by {
      forall i, j | 0 <= i < j < |a| ensures a[i] != a[j] { assert NameOf(a[i]) != NameOf(a[j]); }
    }
    SameLengthIncluded(a, b);
    SortIgnoresOrder(NameOf, a, b);
  }

  /** Key order never shows in the canonical form. */
  lemma {:induction false} SameIsNormalEqual(v: Value, w: Value)
    requires DistinctNames(v) && DistinctNames(w) && Same(v, w)
    ensures Normal(v) == Normal(w)
    decreases v
  {
    match v
    case List(items) =>
      forall i | 0 <= i < |items| ensures Normal(items[i]) == Normal(w.items[i]) {
        SameIsNormalEqual(items[i], w.items[i]);
      }
    case Object(fields) =>
      forall i | 0 <= i < |fields| ensures NormalFields(fields)[i] in NormalFields(w.fields) {
        assert HasSame(fields[i], w.fields);
        var j :| 0 <= j < |w.fields| && fields[i].name == w.fields[j].name && Same(fields[i].value, w.fields[j].value);
        SameIsNormalEqual(fields[i].value, w.fields[j].value);
        assert NormalFields(fields)[i] == NormalFields(w.fields)[j];
      }
      NormalFieldsSame(fields, w.fields);
    case _ =>
  }

  /** Two lists that sort to the same list hold the same elements. */
  lemma SortedAlike<T>(key: T -> string, a: seq<T>, b: seq<T>, i: nat) returns (j: nat)
    requires SortBy(key, a) == SortBy(key, b) && i < |a|
    ensures j < |b| && b[j] == a[i]
  {
    SortPermutes(key, a);
    SortPermutes(key, b);
    assert a[i] in multiset(a) && a[i] in multiset(b);
    j :| 0 <= j < |b| && b[j] == a[i];
  }

  lemma {:induction false} NormalEqualIsSame(v: Value, w: Value)
    requires Normal(v) == Normal(w)
    ensures Same(v, w)
    decreases v
  {
    match v
    case List(items) =>
      forall i | 0 <= i < |items| ensures Same(items[i], w.items[i]) {
        assert Normal(v).items[i] == Normal(w).items[i];
        NormalEqualIsSame(items[i], w.items[i]);
      }
    case Object(fields) =>
      SortPermutes(NameOf, NormalFields(fields));
      SortPermutes(NameOf, NormalFields(w.fields));
      forall i | 0 <= i < |fields| ensures HasSame(fields[i], w.fields) {
        var j := SortedAlike(NameOf, NormalFields(fields), NormalFields(w.fields), i);
        NormalEqualIsSame(fields[i].value, w.fields[j].value);
      }
    case _ =>
  }

  /** The text identifies a value up to key order, and key order only. */
  lemma CanonicalIdentifies(v: Value, w: Value)
    requires DistinctNames(v) && DistinctNames(w)
    ensures Canonical(v) == Canonical(w) <==> Same(v, w)
  {
    if Same(v, w) { SameIsNormalEqual(v, w); }
    if Canonical(v) == Canonical(w) {
      PrintInjective(Normal(v), Normal(w));
      NormalEqualIsSame(v, w);
    }
  }

  /** So does the digest of its bytes, for a digest without collisions. */
  lemma RequestDigestIdentifies(v: Value, w: Value, digest: seq<nat> -> string)
    requires DistinctNames(v) && DistinctNames(w)
    requires digest(Utf8.Encode(Canonical(v))) == digest(Utf8.Encode(Canonical(w))) ==> Utf8.Encode(Canonical(v)) == Utf8.Encode(Canonical(w))
    ensures digest(Utf8.Encode(Canonical(v))) == digest(Utf8.Encode(Canonical(w))) <==> Same(v, w)
  {
    CanonicalIdentifies(v, w);
    if Utf8.Encode(Canonical(v)) == Utf8.Encode(Canonical(w)) { Utf8.EncodeInjective(Canonical(v), Canonical(w)); }
  }

  lemma {:induction false} SameAsNormal(v: Value)
    ensures Same(v, Normal(v))
  {
    match v
    case List(items) =>
      forall i | 0 <= i < |items| ensures Same(items[i], NormalItems(items)[i]) { SameAsNormal(items[i]); }
    case Object(fields) =>
      var all, sorted := NormalFields(fields), SortBy(NameOf, NormalFields(fields));
      SortPermutes(NameOf, all);
      forall i | 0 <= i < |fields| ensures HasSame(fields[i], sorted) {
        SameAsNormal(fields[i].value);
        assert all[i] in multiset(all) && all[i] in multiset(sorted);
        var j :| 0 <= j < |sorted| && sorted[j] == all[i];
      }
    case _ =>
  }

  /** Parsing the canonical text gives back the value up to key order. */
  lemma CanonicalParses(v: Value) returns (w: Value)
    ensures Parses(Canonical(v), w) && Same(v, w)
  {
    w := Normal(v);
    RoundTrip(w);
    SameAsNormal(v);
  }

  // ---------------------------------------------------------------- object graphs

  /** A JavaScript value; Unsupported stands for undefined, functions, symbols, holes, NaN and the infinities. */
  datatype Item =
    | NullItem | BoolItem(b: bool) | NumberItem(n: int) | TextItem(s: string)
    | Unsupported
    | Reference(id: nat)

  datatype Property = Property(name: string, item: Item)

  /** Foreign objects have a prototype of their own. */
  datatype Node = Array(items: seq<Item>) | Record(properties: seq<Property>) | Foreign

  type Graph = map<nat, Node>

  function NodeAt(graph: Graph, id: nat): Node { if id in graph then graph[id] else Foreign }

  function KeyOf(property: Property): string { property.name }

  function Children(node: Node): seq<Item> {
    match node
    case Array(items) => items
    case Record(properties) => Map((p: Property) => p.item, properties)
    case Foreign => []
  }

  /** The tree below an item when it is at most `depth` references deep. */
  function Unfold(graph: Graph, item: Item, depth: nat): Option<Value>
    decreases depth
  {
    match item
    case NullItem => Some(Null)
    case BoolItem(b) => Some(Bool(b))
    case NumberItem(n) => Some(Number(n))
    case TextItem(s) => Some(Text(s))
    case Unsupported => None
    case Reference(id) =>
      if depth == 0 then None
      else
        match NodeAt(graph, id)
        case Foreign => None
        case Array(items) =>
          if forall i :: 0 <= i < |items| ==> Unfold(graph, items[i], depth - 1).Some? then
            Some(List(seq(|items|, i requires 0 <= i < |items| => Unfold(graph, items[i], depth - 1).value)))
          else None
        case Record(properties) =>
          if forall i :: 0 <= i < |properties| ==> Unfold(graph, properties[i].item, depth - 1).Some? then
            Some(Object(seq(|properties|, i requires 0 <= i < |properties| =>
              Field(properties[i].name, Unfold(graph, properties[i].item, depth - 1).value))))
          else None
  }

  lemma {:induction false} UnfoldMonotone(graph: Graph, item: Item, low: nat, high: nat)
    requires low <= high && Unfold(graph, item, low).Some?
    ensures Unfold(graph, item, high) == Unfold(graph, item, low)
    decreases low
  {
    if item.Reference? {
      match NodeAt(graph, item.id)
      case Foreign =>
      case Array(items) =>
        forall i | 0 <= i < |items| ensures Unfold(graph, items[i], high - 1) == Unfold(graph, items[i], low - 1) {
          UnfoldMonotone(graph, items[i], low - 1, high - 1);
        }
        assert Unfold(graph, item, high).value.items == Unfold(graph, item, low).value.items;
      case Record(properties) =>
        forall i | 0 <= i < |properties|
          ensures Unfold(graph, properties[i].item, high - 1) == Unfold(graph, properties[i].item, low - 1)
        {
          UnfoldMonotone(graph, properties[i].item, low - 1, high - 1);
        }
        assert Unfold(graph, item, high).value.fields == Unfold(graph, item, low).value.fields;
    }
  }

  /** Nothing below the item is unsupported and no chain of references below it is endless. */
  ghost predicate Finite(graph: Graph, item: Item) { exists depth: nat :: Unfold(graph, item, depth).Some? }

  /** The tree a finite item stands for, whatever is shared inside it. */
  ghost function Tree(graph: Graph, item: Item): Value
    requires Finite(graph, item)
  {
    var depth: nat :| Unfold(graph, item, depth).Some?;
    Unfold(graph, item, depth).value
  }

  lemma TreeUnique(graph: Graph, item: Item, depth: nat)
    requires Unfold(graph, item, depth).Some?
    ensures Finite(graph, item) && Tree(graph, item) == Unfold(graph, item, depth).value
  {
    forall other: nat | Unfold(graph, item, other).Some? ensures Unfold(graph, item, other) == Unfold(graph, item, depth) {
      UnfoldMonotone(graph, item, if other < depth then other else depth, if other < depth then depth else other);
    }
  }

  // ---------------------------------------------------------------- chains of references

  /** Following `path` from an item, one object at a time, ends at `last`. */
  predicate Walk(graph: Graph, item: Item, path: seq<nat>, last: Item)
    decreases |path|
  {
    if path == [] then item == last
    else
      && item == Reference(path[0])
      && exists i :: 0 <= i < |Children(NodeAt(graph, path[0]))| && Walk(graph, Children(NodeAt(graph, path[0]))[i], path[1..], last)
  }

  predicate Bad(graph: Graph, item: Item) {
    item.Unsupported? || (item.Reference? && NodeAt(graph, item.id).Foreign?)
  }

  /** The tree of an object is deeper than the tree of anything inside it. */
  ghost predicate Deeper(graph: Graph, outer: nat, item: Item) {
    forall depth: nat :: Unfold(graph, Reference(outer), depth).Some? ==> depth > 0 && Unfold(graph, item, depth - 1).Some?
  }

  lemma ChildUnfolds(graph: Graph, outer: nat, i: nat, depth: nat)
    requires i < |Children(NodeAt(graph, outer))| && Unfold(graph, Reference(outer), depth).Some?
    ensures depth > 0 && Unfold(graph, Children(NodeAt(graph, outer))[i], depth - 1).Some?
  {
  }

  lemma ChildDeeper(graph: Graph, outer: nat, i: nat)
    requires i < |Children(NodeAt(graph, outer))|
    ensures Deeper(graph, outer, Children(NodeAt(graph, outer))[i])
  {
    var child := Children(NodeAt(graph, outer))[i];
    forall depth: nat | Unfold(graph, Reference(outer), depth).Some? ensures depth > 0 && Unfold(graph, child, depth - 1).Some? {
      ChildUnfolds(graph, outer, i, depth);
    }
  }

  lemma DeeperAt(graph: Graph, outer: nat, item: Item, depth: nat)
    requires Deeper(graph, outer, item) && Unfold(graph, Reference(outer), depth).Some?
    ensures depth > 0 && Unfold(graph, item, depth - 1).Some?
  {
  }

  lemma DeeperStep(graph: Graph, outer: nat, inner: nat, item: Item)
    requires Deeper(graph, outer, Reference(inner)) && Deeper(graph, inner, item)
    ensures Deeper(graph, outer, item)
  {
    forall depth: nat | Unfold(graph, Reference(outer), depth).Some? ensures depth > 0 && Unfold(graph, item, depth - 1).Some? {
      DeeperAt(graph, outer, Reference(inner), depth);
      DeeperAt(graph, inner, item, depth - 1);
      UnfoldMonotone(graph, item, depth - 2, depth - 1);
    }
  }

  /** An object inside itself has no tree. */
  lemma {:induction false} SelfContained(graph: Graph, id: nat, depth: nat)
    requires Deeper(graph, id, Reference(id))
    ensures Unfold(graph, Reference(id), depth).None?
  {
    if Unfold(graph, Reference(id), depth).Some? { SelfContained(graph, id, depth - 1); }
  }

  lemma WalkStep(graph: Graph, item: Item, path: seq<nat>, last: Item) returns (i: nat)
    requires Walk(graph, item, path, last) && path != []
    ensures item == Reference(path[0]) && i < |Children(NodeAt(graph, path[0]))|
    ensures Walk(graph, Children(NodeAt(graph, path[0]))[i], path[1..], last)
  {
    i :| 0 <= i < |Children(NodeAt(graph, path[0]))| && Walk(graph, Children(NodeAt(graph, path[0]))[i], path[1..], last);
  }

  lemma {:induction false} WalkEnd(graph: Graph, item: Item, path: seq<nat>, last: Item, depth: nat)
    requires Walk(graph, item, path, last) && Unfold(graph, item, depth).Some?
    ensures |path| <= depth && Unfold(graph, last, depth - |path|).Some?
    decreases |path|
  {
    if path != [] {
      var i := WalkStep(graph, item, path, last);
      ChildUnfolds(graph, path[0], i, depth);
      WalkEnd(graph, Children(NodeAt(graph, path[0]))[i], path[1..], last, depth - 1);
    }
  }

  /** Everything after the first object of a walk is inside that object. */
  lemma {:induction false} WalkDeeper(graph: Graph, outer: nat, item: Item, path: seq<nat>, last: Item, j: nat)
    requires Deeper(graph, outer, item) && Walk(graph, item, path, last) && j < |path|
    ensures Deeper(graph, outer, Reference(path[j]))
    decreases |path|
  {
    if j > 0 {
      var i := WalkStep(graph, item, path, last);
      ChildDeeper(graph, path[0], i);
      DeeperStep(graph, outer, path[0], Children(NodeAt(graph, path[0]))[i]);
      WalkDeeper(graph, outer, Children(NodeAt(graph, path[0]))[i], path[1..], last, j - 1);
    }
  }

  lemma {:induction false} CycleEndless(graph: Graph, item: Item, path: seq<nat>, last: Item, a: nat, b: nat, depth: nat)
    requires Walk(graph, item, path, last) && a < b < |path| && path[a] == path[b]
    ensures Unfold(graph, item, depth).None?
    decreases |path|
  {
    var i := WalkStep(graph, item, path, last);
    var child := Children(NodeAt(graph, path[0]))[i];
    ChildDeeper(graph, path[0], i);
    if a == 0 {
      WalkDeeper(graph, path[0], child, path[1..], last, b - 1);
      SelfContained(graph, path[0], depth);
    } else if Unfold(graph, item, depth).Some? {
      CycleEndless(graph, child, path[1..], last, a - 1, b - 1, depth - 1);
    }
  }

  /** Where unfolding fails there is an unsupported item, or a chain as long as one cares to look. */
  lemma {:induction false} FailureWalk(graph: Graph, item: Item, depth: nat) returns (path: seq<nat>, last: Item)
    requires Unfold(graph, item, depth).None?
    ensures Walk(graph, item, path, last) && (Bad(graph, last) || |path| >= depth)
    ensures forall k :: 0 <= k < |path| ==> path[k] in graph
    decreases depth
  {
    path, last := [], item;
    if depth > 0 && !Bad(graph, item) {
      var children := Children(NodeAt(graph, item.id));
      var i :| 0 <= i < |children| && Unfold(graph, children[i], depth - 1).None?;
      var rest, end := FailureWalk(graph, children[i], depth - 1);
      path, last := [item.id] + rest, end;
      assert path[1..] == rest;
    }
  }

  /** No chain of references below the item reaches an unsupported item or visits an object twice. */
  ghost predicate WalksEnd(graph: Graph, item: Item) {
    forall path: seq<nat>, last: Item :: Walk(graph, item, path, last) ==> !Bad(graph, last) && NoRepeats(path)
  }

  lemma FiniteWalksEnd(graph: Graph, item: Item, path: seq<nat>, last: Item)
    requires Finite(graph, item) && Walk(graph, item, path, last)
    ensures !Bad(graph, last) && NoRepeats(path)
  {
    var depth: nat :| Unfold(graph, item, depth).Some?;
    WalkEnd(graph, item, path, last, depth);
    if !NoRepeats(path) {
      var a, b :| 0 <= a < b < |path| && path[a] == path[b];
      CycleEndless(graph, item, path, last, a, b, depth);
    }
  }

  /** Cycles and unsupported items are all that can be wrong: objects shared between chains do no harm. */
  lemma FiniteExactlyWhen(graph: Graph, item: Item)
    ensures Finite(graph, item) <==> WalksEnd(graph, item)
  {
    if Finite(graph, item) {
      forall path: seq<nat>, last: Item | Walk(graph, item, path, last) ensures !Bad(graph, last) && NoRepeats(path) {
        FiniteWalksEnd(graph, item, path, last);
      }
    } else {
      var path, last := FailureWalk(graph, item, |graph.Keys| + 1);
      if !Bad(graph, last) {
        forall id | id in path ensures id in graph.Keys { }
        TooLongRepeats(path, graph.Keys);
      }
      assert Walk(graph, item, path, last) && !(!Bad(graph, last) && NoRepeats(path));
    }
  }

  // ---------------------------------------------------------------- the recursive printer and its ancestors

  function CommaJoin(parts: seq<string>): string {
    if parts == [] then "" else if |parts| == 1 then parts[0] else parts[0] + "," + CommaJoin(parts[1..])
  }

  lemma {:induction false} JoinItems(parts: seq<string>, items: seq<Value>)
    requires |parts| == |items| && forall k :: 0 <= k < |parts| ==> parts[k] == Print(items[k])
    ensures CommaJoin(parts) == PrintItems(items)
  {
    if |parts| > 1 { JoinItems(parts[1..], items[1..]); }
  }

  lemma {:induction false} JoinFields(parts: seq<string>, fields: seq<Field>)
    requires |parts| == |fields| && forall k :: 0 <= k < |parts| ==> parts[k] == PrintField(fields[k])
    ensures CommaJoin(parts) == PrintFields(fields)
  {
    if |parts| > 1 { JoinFields(parts[1..], fields[1..]); }
  }

  /** The text of an item whose tree is at most `depth` deep. */
  ghost predicate Encodes(graph: Graph, item: Item, depth: nat, text: string) {
    Unfold(graph, item, depth).Some? && text == Canonical(Unfold(graph, item, depth).value)
  }

  ghost predicate Endless(graph: Graph, item: Item) { forall depth: nat :: Unfold(graph, item, depth).None? }

  lemma EndlessChild(graph: Graph, id: nat, i: nat)
    requires i < |Children(NodeAt(graph, id))| && Endless(graph, Children(NodeAt(graph, id))[i])
    ensures Endless(graph, Reference(id))
  {
    forall depth: nat ensures Unfold(graph, Reference(id), depth).None? {
      if Unfold(graph, Reference(id), depth).Some? { ChildUnfolds(graph, id, i, depth); }
    }
  }

  lemma ArrayText(graph: Graph, id: nat, items: seq<Item>, depth: nat, parts: seq<string>)
    requires NodeAt(graph, id) == Array(items) && |parts| == |items|
    requires forall k :: 0 <= k < |items| ==> Encodes(graph, items[k], depth, parts[k])
    ensures Encodes(graph, Reference(id), depth + 1, "[" + CommaJoin(parts) + "]")
  {
    assert forall k :: 0 <= k < |items| ==> Unfold(graph, items[k], depth).Some?;
    var values := Unfold(graph, Reference(id), depth + 1).value.items;
    forall k | 0 <= k < |parts| ensures parts[k] == Print(NormalItems(values)[k]) {
      assert Encodes(graph, items[k], depth, parts[k]);
    }
    JoinItems(parts, NormalItems(values));
  }

  /** A property as the member it prints as. */
  function MemberAt(graph: Graph, depth: nat, property: Property): Field {
    Field(property.name, Normal(Unfold(graph, property.item, depth).GetOr(Null)))
  }

  /** The text of a property whose tree is at most `depth` deep. */
  ghost predicate Prints(graph: Graph, property: Property, depth: nat, text: string) {
    Unfold(graph, property.item, depth).Some? && text == PrintField(MemberAt(graph, depth, property))
  }

  lemma MemberText(graph: Graph, property: Property, depth: nat, text: string)
    requires Encodes(graph, property.item, depth, text)
    ensures Prints(graph, property, depth, Quote(property.name) + ":" + text)
  {
  }

  /** Every sorted property is one of the properties. */
  lemma SortedFrom(properties: seq<Property>, i: nat) returns (place: nat)
    requires i < |SortBy(KeyOf, properties)|
    ensures place < |properties| && properties[place] == SortBy(KeyOf, properties)[i]
  {
    SortPermutes(KeyOf, properties);
    var sorted := SortBy(KeyOf, properties);
    assert sorted[i] in multiset(sorted) && sorted[i] in multiset(properties);
    place :| 0 <= place < |properties| && properties[place] == sorted[i];
  }

  lemma AllUnfold(graph: Graph, properties: seq<Property>, depth: nat)
    requires forall k :: 0 <= k < |SortBy(KeyOf, properties)| ==> Unfold(graph, SortBy(KeyOf, properties)[k].item, depth).Some?
    ensures forall k :: 0 <= k < |properties| ==> Unfold(graph, properties[k].item, depth).Some?
  {
    SortPermutes(KeyOf, properties);
    var sorted := SortBy(KeyOf, properties);
    forall k | 0 <= k < |properties| ensures Unfold(graph, properties[k].item, depth).Some? {
      assert properties[k] in multiset(properties) && properties[k] in multiset(sorted);
      var j :| 0 <= j < |sorted| && sorted[j] == properties[k];
    }
  }

  lemma RecordFields(graph: Graph, id: nat, properties: seq<Property>, depth: nat)
    requires NodeAt(graph, id) == Record(properties)
    requires forall k :: 0 <= k < |properties| ==> Unfold(graph, properties[k].item, depth).Some?
    ensures Unfold(graph, Reference(id), depth + 1).Some?
    ensures Normal(Unfold(graph, Reference(id), depth + 1).value)
      == Object(Map((p: Property) => MemberAt(graph, depth, p), SortBy(KeyOf, properties)))
  {
    var fields := Unfold(graph, Reference(id), depth + 1).value.fields;
    var member := (p: Property) => MemberAt(graph, depth, p);
    assert NormalFields(fields) == Map(member, properties);
    SortMap(member, KeyOf, NameOf, properties);
  }

  lemma RecordText(graph: Graph, id: nat, properties: seq<Property>, depth: nat, parts: seq<string>)
    requires NodeAt(graph, id) == Record(properties) && |parts| == |SortBy(KeyOf, properties)|
    requires forall k :: 0 <= k < |parts| ==> Prints(graph, SortBy(KeyOf, properties)[k], depth, parts[k])
    ensures Encodes(graph, Reference(id), depth + 1, "{" + CommaJoin(parts) + "}")
  {
    var sorted := SortBy(KeyOf, properties);
    forall k | 0 <= k < |sorted| ensures Unfold(graph, sorted[k].item, depth).Some? {
      assert Prints(graph, sorted[k], depth, parts[k]);
    }
    AllUnfold(graph, properties, depth);
    RecordFields(graph, id, properties, depth);
    JoinFields(parts, Map((p: Property) => MemberAt(graph, depth, p), sorted));
  }

  /** One call of the printer: a closure over the set of objects it is inside of. */
  class Encoder {
    const graph: Graph
    var ancestors: set<nat>

    constructor (graph: Graph)
      ensures this.graph == graph && ancestors == {}
    {
      this.graph := graph;
      ancestors := {};
    }

    /** Only objects on the way to the item are ancestors. */
    ghost predicate Inside(item: Item)
      reads this
    {
      ancestors <= graph.Keys && forall a :: a in ancestors ==> Deeper(graph, a, item)
    }

    ghost function Room(): nat
      reads this
    {
      |graph.Keys - ancestors|
    }

    method Encode(item: Item) returns (r: Result<string, string>)
      requires Inside(item)
      modifies this
      ensures r.Ok? ==> ancestors == old(ancestors) && Encodes(graph, item, old(Room()) + 1, r.value)
      ensures r.Err? ==> Endless(graph, item)
      decreases Room(), 1
    {
      match item
      case NullItem => return Ok("null");
      case BoolItem(b) => return Ok(if b then "true" else "false");
      case NumberItem(n) => return Ok(PrintNumber(n));
      case TextItem(s) => return Ok(Quote(s));
      case Unsupported => return Err("INVALID_REQUEST");
      case Reference(id) =>
        if id in ancestors {
          forall depth: nat ensures Unfold(graph, item, depth).None? { SelfContained(graph, id, depth); }
          return Err("INVALID_REQUEST");
        }
        match NodeAt(graph, id)
        case Foreign => return Err("INVALID_REQUEST");
        case Array(items) => r := EncodeArray(id, items);
        case Record(properties) => r := EncodeRecord(id, properties);
    }

    /** Going inside one more object. */
    lemma Enter(id: nat, i: nat, outside: set<nat>)
      requires id in graph && id !in outside && ancestors == outside + {id} && outside <= graph.Keys
      requires forall a :: a in outside ==> Deeper(graph, a, Reference(id))
      requires i < |Children(NodeAt(graph, id))|
      ensures Inside(Children(NodeAt(graph, id))[i])
      ensures Room() + 1 == |graph.Keys - outside|
    {
      var child := Children(NodeAt(graph, id))[i];
      ChildDeeper(graph, id, i);
      forall a | a in outside ensures Deeper(graph, a, child) { DeeperStep(graph, a, id, child); }
      assert graph.Keys - outside == (graph.Keys - ancestors) + {id};
    }

    method EncodeArray(id: nat, items: seq<Item>) returns (r: Result<string, string>)
      requires Inside(Reference(id)) && id !in ancestors && NodeAt(graph, id) == Array(items)
      modifies this
      ensures r.Ok? ==> ancestors == old(ancestors) && Encodes(graph, Reference(id), old(Room()) + 1, r.value)
      ensures r.Err? ==> Endless(graph, Reference(id))
      decreases Room(), 0
    {
      ghost var outside := ancestors;
      ghost var room := Room();
      ancestors := ancestors + {id};
      var parts: seq<string> := [];
      for i := 0 to |items|
        invariant ancestors == outside + {id} && |parts| == i
        invariant forall k :: 0 <= k < i ==> Encodes(graph, items[k], room, parts[k])
      {
        Enter(id, i, outside);
        var part := Encode(items[i]);
        if part.Err? {
          EndlessChild(graph, id, i);
          return part;
        }
        parts := parts + [part.value];
      }
      ArrayText(graph, id, items, room, parts);
      ancestors := ancestors - {id};
      r := Ok("[" + CommaJoin(parts) + "]");
    }

    /** One member of a record, the record being the innermost ancestor. */
    method EncodeMember(id: nat, property: Property, ghost place: nat, ghost outside: set<nat>) returns (r: Result<string, string>)
      requires id in graph && id !in outside && ancestors == outside + {id} && outside <= graph.Keys
      requires forall a :: a in outside ==> Deeper(graph, a, Reference(id))
      requires NodeAt(graph, id).Record? && place < |NodeAt(graph, id).properties| && NodeAt(graph, id).properties[place] == property
      modifies this
      ensures r.Ok? ==> ancestors == old(ancestors) && Prints(graph, property, |graph.Keys - outside|, r.value)
      ensures r.Err? ==> Endless(graph, Reference(id))
      decreases Room(), 2
    {
      Enter(id, place, outside);
      r := Encode(property.item);
      if r.Err? {
        EndlessChild(graph, id, place);
      } else {
        MemberText(graph, property, |graph.Keys - outside|, r.value);
        r := Ok(Quote(property.name) + ":" + r.value);
      }
    }

    method EncodeRecord(id: nat, properties: seq<Property>) returns (r: Result<string, string>)
      requires Inside(Reference(id)) && id !in ancestors && NodeAt(graph, id) == Record(properties)
      modifies this
      ensures r.Ok? ==> ancestors == old(ancestors) && Encodes(graph, Reference(id), old(Room()) + 1, r.value)
      ensures r.Err? ==> Endless(graph, Reference(id))
      decreases Room(), 0
    {
      ghost var outside := ancestors;
      ghost var room := Room();
      ancestors := ancestors + {id};
      assert graph.Keys - outside == (graph.Keys - ancestors) + {id};
      var sorted := SortBy(KeyOf, properties);
      var parts: seq<string> := [];
      for i := 0 to |sorted|
        invariant ancestors == outside + {id} && |parts| == i
        invariant forall k :: 0 <= k < i ==> Prints(graph, sorted[k], room, parts[k])
      {
        ghost var place := SortedFrom(properties, i);
        var part := EncodeMember(id, sorted[i], place, outside);
        if part.Err? { return part; }
        parts := parts + [part.value];
      }
      RecordText(graph, id, properties, room, parts);
      ancestors := ancestors - {id};
      r := Ok("{" + CommaJoin(parts) + "}");
    }
  }

  /** `canonicalJson`: finite items get the canonical text of their tree, all others are refused. */
  method CanonicalJson(graph: Graph, item: Item) returns (r: Result<string, string>)
    ensures r.Ok? <==> Finite(graph, item)
    ensures r.Ok? ==> r.value == Canonical(Tree(graph, item))
  {
    var encoder := new Encoder(graph);
    r := encoder.Encode(item);
    if r.Ok? { TreeUnique(graph, item, |graph.Keys - {}| + 1); }
  }
}
