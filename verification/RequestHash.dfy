/** The hash of a work-order request, with SHA-256 and UTF-8 left abstract. */
module RequestHash {
  import opened Options

  type Bytes = seq<bv8>

  /** SHA-256 and UTF-8. */
  datatype Primitives = Primitives(hash: Bytes -> Bytes, encode: string -> Bytes)

  datatype Item = Item(
    index: int, dataHash: Option<string>, data: Option<string>, key: Option<string>, iv: Option<string>)

  datatype Params = Params(
    requesterNonce: string, workOrderId: string, workerId: string, workloadId: string, requesterId: string,
    inData: seq<Item>, outData: Option<seq<Item>>)

  function OrEmpty(s: Option<string>): string {
    if s.Some? then s.value else ""
  }

  function ItemText(item: Item): string {
    OrEmpty(item.dataHash) + OrEmpty(item.data) + OrEmpty(item.key) + OrEmpty(item.iv)
  }

  function Text(items: seq<Item>): string {
    if items == [] then "" else Text(items[..|items| - 1]) + ItemText(items[|items| - 1])
  }

  // ----- sorting by index ----------------------------------------------------------------------------

  predicate InOrder(items: seq<Item>) {
    forall i, j :: 0 <= i < j < |items| ==> items[i].index <= items[j].index
  }

  /** Behind the items with the same or a smaller index. */
  function Insert(item: Item, items: seq<Item>): seq<Item> {
    if items == [] || items[|items| - 1].index <= item.index then items + [item]
    else Insert(item, items[..|items| - 1]) + [items[|items| - 1]]
  }

  /** The stable sort by index. */
  function Sorted(items: seq<Item>): seq<Item> {
    if items == [] then [] else Insert(items[|items| - 1], Sorted(items[..|items| - 1]))
  }

  lemma {:induction false} InsertKeepsItems(item: Item, items: seq<Item>)
    ensures multiset(Insert(item, items)) == multiset(items) + multiset{item}
  {
    if items != [] && items[|items| - 1].index > item.index {
      assert items == items[..|items| - 1] + [items[|items| - 1]];
      InsertKeepsItems(item, items[..|items| - 1]);
    }
  }

  lemma {:induction false} InsertKeepsOrder(item: Item, items: seq<Item>)
    requires InOrder(items)
    ensures InOrder(Insert(item, items))
    ensures forall i :: 0 <= i < |Insert(item, items)| ==>
              Insert(item, items)[i] == item || Insert(item, items)[i] in items
  {
    if items != [] && items[|items| - 1].index > item.index {
      InsertKeepsOrder(item, items[..|items| - 1]);
    }
  }

  lemma SnocItems(items: seq<Item>)
    requires items != []
    ensures multiset(items) == multiset(items[..|items| - 1]) + multiset{items[|items| - 1]}
  {
    assert items == items[..|items| - 1] + [items[|items| - 1]];
  }

  /** Sorting orders the items by index and loses or adds none. */
  lemma {:induction false} SortedFacts(items: seq<Item>)
    ensures InOrder(Sorted(items)) && multiset(Sorted(items)) == multiset(items)
  {
    if items != [] {
      var init := items[..|items| - 1];
      SortedFacts(init);
      InsertKeepsOrder(items[|items| - 1], Sorted(init));
      InsertKeepsItems(items[|items| - 1], Sorted(init));
      SnocItems(items);
    }
  }

  function WithIndex(items: seq<Item>, index: int): seq<Item> {
    if items == [] then []
    else
      var last := items[|items| - 1];
      WithIndex(items[..|items| - 1], index) + if last.index == index then [last] else []
  }

  lemma WithIndexSnoc(items: seq<Item>, item: Item, index: int)
    ensures WithIndex(items + [item], index) == WithIndex(items, index) + if item.index == index then [item] else []
  {
    assert (items + [item])[..|items|] == items;
  }

  lemma {:induction false} InsertStable(item: Item, items: seq<Item>, index: int)
    requires InOrder(items)
    ensures WithIndex(Insert(item, items), index)
            == WithIndex(items, index) + if item.index == index then [item] else []
  {
    if items == [] || items[|items| - 1].index <= item.index {
      WithIndexSnoc(items, item, index);
    } else {
      var init, last := items[..|items| - 1], items[|items| - 1];
      InsertStable(item, init, index);
      WithIndexSnoc(Insert(item, init), last, index);
      var same := WithIndex(init, index);
      if item.index == index {
        assert same + [item] + [] == same + [] + [item];
      } else {
        assert same + [] == same;
      }
    }
  }

  /** Items with the same index keep their order. */
  lemma {:induction false} SortedStable(items: seq<Item>, index: int)
    ensures WithIndex(Sorted(items), index) == WithIndex(items, index)
  {
    if items != [] {
      var init := items[..|items| - 1];
      SortedStable(init, index);
      SortedFacts(init);
      InsertStable(items[|items| - 1], Sorted(init), index);
    }
  }

  predicate DistinctIndexes(items: seq<Item>) {
    forall i, j :: 0 <= i < j < |items| ==> items[i].index != items[j].index
  }

  // ----- the hashes ------------------------------------------------------------------------------------

  function DataHash(p: Primitives, items: seq<Item>): Bytes {
    p.hash(p.encode(Text(Sorted(items))))
  }

  function RequestHash(p: Primitives, r: Params): Bytes {
    var head := r.requesterNonce + r.workOrderId + r.workerId + r.workloadId + r.requesterId;
    p.hash(p.hash(p.encode(head)) + DataHash(p, r.inData)
           + if r.outData.Some? && r.outData.value != [] then DataHash(p, r.outData.value) else [])
  }

  /** Sorts the items in place and hashes their texts. */
  method CalculateDataHash(p: Primitives, items: array<Item>) returns (hash: Bytes)
    modifies items
    ensures hash == DataHash(p, old(items[..]))
    ensures items[..] == Sorted(old(items[..]))
  {
    SortInPlace(items);
    var text := "";
    var i := 0;
    while i < items.Length
      invariant 0 <= i <= items.Length && text == Text(items[..i])
    {
      assert items[..i + 1][..i] == items[..i];
      text := text + ItemText(items[i]);
      i := i + 1;
    }
    assert items[..i] == items[..];
    return p.hash(p.encode(text));
  }

  /** The hash of the five header texts, then that of the input, then that of the output if there is
      any, hashed together; both lists end up sorted. */
  method CalculateRequestHash(p: Primitives, r: Params, inData: array<Item>, outData: array<Item>)
    returns (hash: Bytes)
    requires inData[..] == r.inData && (r.outData.Some? ==> outData[..] == r.outData.value) && inData != outData
    modifies inData, outData
    ensures var first := p.hash(p.encode(r.requesterNonce + r.workOrderId + r.workerId + r.workloadId + r.requesterId));
            hash == if r.outData.Some? && |r.outData.value| > 0
                    then p.hash(first + DataHash(p, r.inData) + DataHash(p, r.outData.value))
                    else p.hash(first + DataHash(p, r.inData))
    ensures hash == RequestHash(p, r)
    ensures inData[..] == Sorted(r.inData)
    ensures outData[..] == if r.outData.Some? then Sorted(r.outData.value) else old(outData[..])
  {
    var concat := r.requesterNonce + r.workOrderId + r.workerId + r.workloadId + r.requesterId;
    var hash1 := p.hash(p.encode(concat));
    var hash2 := CalculateDataHash(p, inData);
    var hash3: Bytes := [];
    if r.outData.Some? && outData.Length > 0 {
      hash3 := CalculateDataHash(p, outData);
    }
    assert hash1 + hash2 + [] == hash1 + hash2;
    return p.hash(hash1 + hash2 + hash3);
  }

  // ----- which text is hashed ----------------------------------------------------------------------------

  /** One item is hashed as its data hash, data, encrypted key and initialisation vector, in that
      order; a missing field counts as nothing. */
  lemma OneItemHash(p: Primitives, index: int, dataHash: Option<string>, data: Option<string>,
                    key: Option<string>, iv: Option<string>)
    ensures DataHash(p, [Item(index, dataHash, data, key, iv)]) ==
            p.hash(p.encode((if dataHash.Some? then dataHash.value else "") + (if data.Some? then data.value else "")
                            + (if key.Some? then key.value else "") + if iv.Some? then iv.value else ""))
  {
    var item := Item(index, dataHash, data, key, iv);
    assert [item][..0] == [];
    assert Sorted([item]) == [item];
    assert Text([item]) == "" + ItemText(item) == ItemText(item);
  }

  predicate AllBelow(a: seq<Item>, b: seq<Item>) {
    forall i, j :: 0 <= i < |a| && 0 <= j < |b| ==> a[i].index < b[j].index
  }

  lemma {:induction false} InsertBehind(item: Item, a: seq<Item>, b: seq<Item>)
    requires forall i :: 0 <= i < |a| ==> a[i].index < item.index
    ensures Insert(item, a + b) == a + Insert(item, b)
    decreases |b|
  {
    var ab := a + b;
    if b == [] {
      assert ab == a && (a != [] ==> a[|a| - 1].index < item.index);
    } else {
      var last := b[|b| - 1];
      assert ab[|ab| - 1] == last;
      if last.index <= item.index {
        assert a + b + [item] == a + (b + [item]);
      } else {
        assert ab[..|ab| - 1] == a + b[..|b| - 1];
        InsertBehind(item, a, b[..|b| - 1]);
        assert a + Insert(item, b[..|b| - 1]) + [last] == a + (Insert(item, b[..|b| - 1]) + [last]);
      }
    }
  }

  lemma SortedBelow(a: seq<Item>, item: Item)
    requires forall i :: 0 <= i < |a| ==> a[i].index < item.index
    ensures forall i :: 0 <= i < |Sorted(a)| ==> Sorted(a)[i].index < item.index
  {
    SortedFacts(a);
    forall i | 0 <= i < |Sorted(a)| ensures Sorted(a)[i].index < item.index {
      assert Sorted(a)[i] in multiset(Sorted(a)) && Sorted(a)[i] in multiset(a);
      assert Sorted(a)[i] in a;
    }
  }

  lemma {:induction false} SortedConcat(a: seq<Item>, b: seq<Item>)
    requires AllBelow(a, b)
    ensures Sorted(a + b) == Sorted(a) + Sorted(b)
    decreases |b|
  {
    if b == [] {
      assert a + b == a;
    } else {
      var init, last := b[..|b| - 1], b[|b| - 1];
      assert (a + b)[..|a + b| - 1] == a + init;
      SortedConcat(a, init);
      SortedBelow(a, last);
      InsertBehind(last, Sorted(a), Sorted(init));
    }
  }

  lemma {:induction false} TextConcat(a: seq<Item>, b: seq<Item>)
    ensures Text(a + b) == Text(a) + Text(b)
    decreases |b|
  {
    if b == [] {
      assert a + b == a;
    } else {
      var init := b[..|b| - 1];
      assert (a + b)[..|a + b| - 1] == a + init;
      TextConcat(a, init);
      Associated(Text(a), Text(init), ItemText(b[|b| - 1]));
    }
  }

  lemma Associated(x: string, y: string, z: string)
    ensures x + y + z == x + (y + z)
  {
  }

  /** Items with lower indexes come first in the hashed text, wherever they stand. */
  lemma ConcatHash(p: Primitives, a: seq<Item>, b: seq<Item>, items: seq<Item>)
    requires AllBelow(a, b) && (items == a + b || items == b + a)
    ensures DataHash(p, items) == p.hash(p.encode(Text(Sorted(a)) + Text(Sorted(b))))
  {
    SortedConcat(a, b);
    TextConcat(Sorted(a), Sorted(b));
    if items == b + a {
      forall index ensures WithIndex(b + a, index) == WithIndex(a + b, index) {
        WithIndexConcat(b, a, index);
        WithIndexConcat(a, b, index);
        OneSideEmpty(a, b, index);
        assert WithIndex(a, index) + [] == [] + WithIndex(a, index);
        assert WithIndex(b, index) + [] == [] + WithIndex(b, index);
      }
      SortedExact(b + a, a + b);
    }
  }

  lemma {:induction false} WithIndexConcat(a: seq<Item>, b: seq<Item>, index: int)
    ensures WithIndex(a + b, index) == WithIndex(a, index) + WithIndex(b, index)
    decreases |b|
  {
    if b == [] {
      assert a + b == a;
    } else {
      assert (a + b)[..|a + b| - 1] == a + b[..|b| - 1];
      WithIndexConcat(a, b[..|b| - 1], index);
    }
  }

  lemma OneSideEmpty(a: seq<Item>, b: seq<Item>, index: int)
    requires AllBelow(a, b)
    ensures WithIndex(a, index) == [] || WithIndex(b, index) == []
  {
    if WithIndex(a, index) != [] && WithIndex(b, index) != [] {
      var x, y := WithIndex(a, index)[0], WithIndex(b, index)[0];
      GroupMembers(a, index, x);
      GroupMembers(b, index, y);
    }
  }

  /** The library's stable sort. */
  method SortInPlace(items: array<Item>)
    modifies items
    ensures items[..] == Sorted(old(items[..]))
  {
    ghost var was := items[..];
    var i := 0;
    while i < items.Length
      invariant 0 <= i <= items.Length
      invariant items[..i] == Sorted(was[..i]) && items[i..] == was[i..]
    {
      assert was[..i + 1][..i] == was[..i];
      SiftDown(items, i);
      i := i + 1;
    }
    assert items[..i] == items[..] && was[..i] == was;
  }

  /** Inserting goes right before the items with a larger index. */
  lemma {:induction false} InsertAt(item: Item, items: seq<Item>, k: nat)
    requires k <= |items| && (k > 0 ==> items[k - 1].index <= item.index)
    requires forall j :: k <= j < |items| ==> items[j].index > item.index
    ensures Insert(item, items) == items[..k] + [item] + items[k..]
  {
    var n := |items| - 1;
    if k < |items| {
      InsertAt(item, items[..n], k);
      assert items[..n][..k] == items[..k] && items[k..] == items[..n][k..] + [items[n]];
    } else {
      assert items[..k] == items;
    }
  }

  /** Moves item `n` into its place among the first `n`. */
  method SiftDown(items: array<Item>, n: nat)
    requires n < items.Length
    modifies items
    ensures items[..n + 1] == Insert(old(items[n]), old(items[..n]))
    ensures items[n + 1..] == old(items[n + 1..])
  {
    var item := items[n];
    ghost var was := items[..n];
    var k := n;
    while k > 0 && items[k - 1].index > item.index
      invariant 0 <= k <= n
      invariant forall j :: 0 <= j < k ==> items[j] == was[j]
      invariant forall j :: k < j <= n ==> items[j] == was[j - 1]
      invariant forall j :: k <= j < n ==> was[j].index > item.index
      invariant forall j :: n < j < items.Length ==> items[j] == old(items[j])
    {
      items[k] := items[k - 1];
      k := k - 1;
    }
    items[k] := item;
    InsertAt(item, was, k);
    ghost var r := was[..k] + [item] + was[k..];
    forall j | 0 <= j <= n ensures items[j] == r[j] {
      assert j > k ==> r[j] == was[j - 1];
    }
    assert items[..n + 1] == r;
  }

  // ----- when the order of the items matters -------------------------------------------------------

  /** Two lists have the same items in the same order at every index. */
  ghost predicate SameGroups(a: seq<Item>, b: seq<Item>) {
    forall index :: WithIndex(a, index) == WithIndex(b, index)
  }

  lemma {:induction false} GroupMembers(items: seq<Item>, index: int, x: Item)
    ensures x in WithIndex(items, index) <==> x in items && x.index == index
  {
    if items != [] {
      assert items == items[..|items| - 1] + [items[|items| - 1]];
      GroupMembers(items[..|items| - 1], index, x);
    }
  }

  lemma LargestLast(a: seq<Item>, b: seq<Item>)
    requires InOrder(b) && SameGroups(a, b) && a != []
    ensures b != [] && a[|a| - 1].index <= b[|b| - 1].index
  {
    var x := a[|a| - 1];
    GroupMembers(a, x.index, x);
    assert WithIndex(a, x.index) == WithIndex(b, x.index);
    GroupMembers(b, x.index, x);
  }

  /** An ordered list is determined by its groups. */
  lemma {:induction false} OrderedByGroups(a: seq<Item>, b: seq<Item>)
    requires InOrder(a) && InOrder(b) && SameGroups(a, b)
    ensures a == b
  {
    if a == [] || b == [] {
      if a != [] {
        LargestLast(a, b);
      }
      if b != [] {
        LargestLast(b, a);
      }
    } else {
      LargestLast(a, b);
      LargestLast(b, a);
      var a', b' := a[..|a| - 1], b[..|b| - 1];
      GroupStep(a, b, a[|a| - 1].index);
      forall index ensures WithIndex(a', index) == WithIndex(b', index) { GroupStep(a, b, index); }
      OrderedByGroups(a', b');
      assert a == a' + [a[|a| - 1]] && b == b' + [b[|b| - 1]];
    }
  }

  lemma GroupStep(a: seq<Item>, b: seq<Item>, index: int)
    requires a != [] && b != [] && a[|a| - 1].index == b[|b| - 1].index && SameGroups(a, b)
    ensures WithIndex(a[..|a| - 1], index) == WithIndex(b[..|b| - 1], index)
    ensures index == a[|a| - 1].index ==> a[|a| - 1] == b[|b| - 1]
  {
    assert WithIndex(a, index) == WithIndex(b, index);
    var l, k := WithIndex(a[..|a| - 1], index), WithIndex(b[..|b| - 1], index);
    if index == a[|a| - 1].index {
      SnocInjective(l, a[|a| - 1], k, b[|b| - 1]);
    } else {
      assert l + [] == l && k + [] == k;
    }
  }

  lemma SnocInjective(l: seq<Item>, x: Item, k: seq<Item>, y: Item)
    requires l + [x] == k + [y]
    ensures l == k && x == y
  {
    assert (l + [x])[|l|] == x && (k + [y])[|k|] == y && |l + [x]| == |k + [y]|;
    assert (l + [x])[..|l|] == l && (k + [y])[..|k|] == k;
  }

  /** Two lists sort to the same one if and only if items with the same index stand in the same
      order in both. */
  lemma SortedExact(a: seq<Item>, b: seq<Item>)
    ensures Sorted(a) == Sorted(b) <==> SameGroups(a, b)
  {
    forall index ensures WithIndex(Sorted(a), index) == WithIndex(a, index) { SortedStable(a, index); }
    forall index ensures WithIndex(Sorted(b), index) == WithIndex(b, index) { SortedStable(b, index); }
    SortedFacts(a);
    SortedFacts(b);
    if Sorted(a) == Sorted(b) {
      forall index ensures WithIndex(a, index) == WithIndex(b, index) {
        assert WithIndex(Sorted(a), index) == WithIndex(Sorted(b), index);
      }
    }
    if SameGroups(a, b) {
      forall index ensures WithIndex(Sorted(a), index) == WithIndex(Sorted(b), index) {
        assert WithIndex(a, index) == WithIndex(b, index);
      }
      OrderedByGroups(Sorted(a), Sorted(b));
    }
  }

  /** Reordering items that keep their order at each index never changes the data hash. */
  lemma DataHashByGroups(p: Primitives, a: seq<Item>, b: seq<Item>)
    requires SameGroups(a, b)
    ensures DataHash(p, a) == DataHash(p, b)
  {
    SortedExact(a, b);
  }

  function OneFor(text: string): string -> Bytes {
    s => if s == text then [1] else [0]
  }

  /** Primitives whose hash tells one text from all others. */
  function Telling(text: string): Primitives {
    Primitives((bytes: Bytes) => bytes, OneFor(text))
  }

  lemma TellingHash(text: string, items: seq<Item>)
    ensures DataHash(Telling(text), items) == [1] <==> Text(Sorted(items)) == text
  {
    assert DataHash(Telling(text), items) == OneFor(text)(Text(Sorted(items)));
  }

  /** Nothing but the concatenated texts in index order decides the data hash. */
  lemma DataHashExact(a: seq<Item>, b: seq<Item>)
    ensures (forall p :: DataHash(p, a) == DataHash(p, b)) <==> Text(Sorted(a)) == Text(Sorted(b))
  {
    var text := Text(Sorted(a));
    TellingHash(text, a);
    TellingHash(text, b);
    if forall p :: DataHash(p, a) == DataHash(p, b) {
      assert DataHash(Telling(text), a) == DataHash(Telling(text), b);
    }
  }

  lemma {:induction false} IndexCounts(items: seq<Item>, index: int)
    requires DistinctIndexes(items)
    ensures |WithIndex(items, index)| <= 1
    ensures (forall i :: 0 <= i < |items| ==> items[i].index != index) ==> WithIndex(items, index) == []
  {
    if items != [] {
      IndexCounts(items[..|items| - 1], index);
    }
  }

  /** The same items, in any order. */
  ghost predicate SameMembers(a: seq<Item>, b: seq<Item>) {
    forall x :: x in a <==> x in b
  }

  lemma PermutationMembers(a: seq<Item>, b: seq<Item>)
    requires multiset(a) == multiset(b)
    ensures SameMembers(a, b)
  {
    forall x ensures x in a <==> x in b {
      assert x in multiset(a) <==> x in multiset(b);
    }
  }

  lemma PermutedGroups(a: seq<Item>, b: seq<Item>, index: int)
    requires SameMembers(a, b) && DistinctIndexes(a) && DistinctIndexes(b)
    ensures WithIndex(a, index) == WithIndex(b, index)
  {
    IndexCounts(a, index);
    IndexCounts(b, index);
    forall x ensures x in WithIndex(a, index) <==> x in WithIndex(b, index) {
      GroupMembers(a, index, x);
      GroupMembers(b, index, x);
    }
    ShortEqual(WithIndex(a, index), WithIndex(b, index));
  }

  lemma ShortEqual(l: seq<Item>, k: seq<Item>)
    requires |l| <= 1 && |k| <= 1 && forall x :: x in l <==> x in k
    ensures l == k
  {
    assert l != [] ==> l[0] in k;
    assert k != [] ==> k[0] in l;
  }

  /** Any order of items with distinct indexes gives the same data hash. */
  lemma DataHashIgnoresOrder(p: Primitives, a: seq<Item>, b: seq<Item>)
    requires SameMembers(a, b) && DistinctIndexes(a) && DistinctIndexes(b)
    ensures DataHash(p, a) == DataHash(p, b)
  {
    forall index ensures WithIndex(a, index) == WithIndex(b, index) { PermutedGroups(a, b, index); }
    DataHashByGroups(p, a, b);
  }

  lemma TwiceInBag(l: seq<Item>, i: nat, j: nat)
    requires i < j < |l| && l[i] == l[j]
    ensures multiset(l)[l[i]] >= 2
  {
    assert l == l[..j] + [l[j]] + l[j + 1..];
    assert l[..j][i] == l[i] && multiset(l[..j])[l[i]] >= 1;
  }

  lemma {:induction false} OnceInBag(l: seq<Item>, x: Item)
    requires DistinctIndexes(l)
    ensures multiset(l)[x] <= 1
  {
    if l != [] {
      var init, last := l[..|l| - 1], l[|l| - 1];
      assert l == init + [last];
      OnceInBag(init, x);
      assert x == last ==> x !in init;
    }
  }

  lemma PermutedDistinct(a: seq<Item>, b: seq<Item>)
    requires multiset(a) == multiset(b) && DistinctIndexes(a)
    ensures DistinctIndexes(b)
  {
    PermutationMembers(a, b);
    forall i, j | 0 <= i < j < |b| ensures b[i].index != b[j].index {
      assert b[i] in a && b[j] in a;
      if b[i] == b[j] {
        TwiceInBag(b, i, j);
        OnceInBag(a, b[i]);
      }
    }
  }

  /** So every permutation of such items has the same data hash. */
  lemma PermutedDataHash(p: Primitives, a: seq<Item>, b: seq<Item>)
    requires multiset(a) == multiset(b) && DistinctIndexes(a)
    ensures DataHash(p, a) == DataHash(p, b)
  {
    PermutationMembers(a, b);
    PermutedDistinct(a, b);
    DataHashIgnoresOrder(p, a, b);
  }

  ghost predicate SameItems(a: Params, b: Params) {
    && b == a.(inData := b.inData, outData := b.outData)
    && SameMembers(a.inData, b.inData)
    && (a.outData.Some? <==> b.outData.Some?)
    && (a.outData.Some? ==> SameMembers(a.outData.value, b.outData.value))
  }

  predicate Indexed(r: Params) {
    DistinctIndexes(r.inData) && (r.outData.Some? ==> DistinctIndexes(r.outData.value))
  }

  /** Any order of the input and output items gives the same request hash. */
  lemma RequestHashIgnoresOrder(p: Primitives, a: Params, b: Params)
    requires SameItems(a, b) && Indexed(a) && Indexed(b)
    ensures RequestHash(p, a) == RequestHash(p, b)
  {
    DataHashIgnoresOrder(p, a.inData, b.inData);
    if a.outData.Some? {
      var x, y := a.outData.value, b.outData.value;
      assert x != [] ==> x[0] in y;
      assert y != [] ==> y[0] in x;
      DataHashIgnoresOrder(p, x, y);
    }
  }
}
