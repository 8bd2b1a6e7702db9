/** Search-delete on lists whose elements may have any lengths.

The loop compares the searched value with the buffer at every multiple of its
length plus one, whether or not an element starts there.  Here is when that is
still delete-first-occurrence.
*/
module CsvSearch {
  import opened Options
  import opened CsvCodec
  import opened CsvOps

  /** The bytes of `value` stand at `at`. */
  predicate Stands(b: Bytes, value: Bytes, at: nat) {
    at + |value| <= |b| && b[at..at + |value|] == value
  }

  /** `at` is a whole number of strides `p` behind `from`. */
  predicate OnStride(from: nat, at: nat, p: nat) {
    at == from || (p > 0 && at >= from + p && OnStride(from, at - p, p))
  }

  lemma {:induction false} StrideAppend(from: nat, at: nat, p: nat)
    requires p > 0 && at > from
    ensures OnStride(from, at, p) <==> at >= from + p && OnStride(from + p, at, p)
  {
    if at >= from + p && at - p > from {
      StrideAppend(from, at - p, p);
    }
  }

  lemma {:induction false} StrideBack(from: nat, o: nat, at: nat, p: nat)
    requires p > 0 && from <= o && OnStride(from, at, p) && OnStride(o, at, p)
    ensures OnStride(from, o, p)
  {
    if at != o && at != from {
      StrideBack(from, o, at - p, p);
    }
  }

  /** The loop stops at the first stride offset where the value stands, if there is one. */
  lemma {:induction false} FirstHit(b: Bytes, value: Bytes, itr: nat, x: nat)
    ensures OnStride(itr, StrideFind(b, value, itr), |value| + 1)
    ensures OnStride(itr, x, |value| + 1) && x < |b| && Stands(b, value, x) ==> StrideFind(b, value, itr) <= x
    decreases |b| - itr
  {
    var p := |value| + 1;
    if itr < |b| && !Stands(b, value, itr) {
      FirstHit(b, value, itr + p, x);
      StrideAppend(itr, StrideFind(b, value, itr), p);
      if x > itr {
        StrideAppend(itr, x, p);
      }
    }
  }

  // ----- which erasures are the same --------------------------------------------------------------

  /** From `at` to `o` the bytes are `value` and a comma, over and over. */
  predicate Repeats(b: Bytes, value: Bytes, at: nat, o: nat)
    decreases o - at
  {
    at == o ||
    (at + |value| + 1 <= o <= |b| && b[at..at + |value| + 1] == value + [COMMA] && Repeats(b, value, at + |value| + 1, o))
  }

  /** `value` stands at `o` as a whole element. */
  predicate IsElement(b: Bytes, value: Bytes, o: nat) {
    && Stands(b, value, o) && (o > 0 ==> b[o - 1] == COMMA)
    && (o + |value| < |b| ==> b[o + |value|] == COMMA)
  }

  /** Which byte an erasure beside other elements leaves where. */
  lemma EraseByte(b: Bytes, n: nat, at: nat, j: nat)
    requires n < |b| && at < |b| && at + n <= |b| && (at + n == |b| ==> at > 0) && j < |b| - n - 1
    ensures |EraseAt(b, n, at)| == |b| - n - 1
    ensures EraseAt(b, n, at)[j] == b[if j < at || at + n == |b| then j else j + n + 1]
  {
  }

  lemma SameValueByte(b: Bytes, value: Bytes, x: nat, y: nat, k: nat)
    requires Stands(b, value, x) && Stands(b, value, y) && k < |value|
    ensures b[x + k] == b[y + k]
  {
    assert b[x..x + |value|][k] == b[y..y + |value|][k];
  }

  /** Erasing one of two neighbours of a run is erasing the other. */
  lemma EraseNeighbour(b: Bytes, value: Bytes, at: nat)
    requires var n := |value|;
             && value != [] && Stands(b, value, at) && at + n < |b| && b[at + n] == COMMA
             && Stands(b, value, at + n + 1) && (at + 2 * n + 1 < |b| ==> b[at + 2 * n + 1] == COMMA)
    ensures EraseAt(b, |value|, at) == EraseAt(b, |value|, at + |value| + 1)
  {
    var n := |value|;
    var p := n + 1;
    EraseByte(b, n, at, 0);
    EraseByte(b, n, at + p, 0);
    forall j | 0 <= j < |b| - p ensures EraseAt(b, n, at)[j] == EraseAt(b, n, at + p)[j] {
      EraseByte(b, n, at, j);
      EraseByte(b, n, at + p, j);
      if at <= j < at + n {
        SameValueByte(b, value, at, at + p, j - at);
      }
    }
  }

  lemma {:induction false} RepeatsErase(b: Bytes, value: Bytes, at: nat, o: nat)
    requires value != [] && at <= o && Repeats(b, value, at, o) && IsElement(b, value, o)
    ensures at < |b| && at + |value| <= |b| && EraseAt(b, |value|, at) == EraseAt(b, |value|, o)
    ensures Stands(b, value, at) && (at + |value| < |b| ==> b[at + |value|] == COMMA)
    decreases o - at
  {
    if at < o {
      var next := at + |value| + 1;
      RepeatsErase(b, value, next, o);
      assert b[at..next] == value + [COMMA];
      assert b[at..next][..|value|] == value && b[at..next][|value|] == COMMA;
      assert b[at..at + |value|] == b[at..next][..|value|];
      EraseNeighbour(b, value, at);
    }
  }

  predicate SameByte(b: Bytes, j: nat, p: nat) {
    j + p < |b| && b[j] == b[j + p]
  }

  /** Bytes repeat with period `p` between two offsets. */
  predicate Periodic(b: Bytes, p: nat, from: nat, to: nat) {
    forall j :: from <= j < to ==> SameByte(b, j, p)
  }

  lemma NextStands(b: Bytes, value: Bytes, at: nat)
    requires Stands(b, value, at) && at + 2 * |value| + 1 <= |b|
    requires Periodic(b, |value| + 1, at, at + |value|)
    ensures Stands(b, value, at + |value| + 1)
  {
    var n := |value|;
    forall k | 0 <= k < n ensures b[at + n + 1 + k] == value[k] {
      assert b[at + k] == b[at..at + n][k];
      assert SameByte(b, at + k, n + 1);
    }
  }

  lemma NoCommaInside(b: Bytes, value: Bytes, at: nat)
    requires CommaFree(value) && Stands(b, value, at)
    ensures forall x :: at <= x < at + |value| ==> b[x] != COMMA
  {
    forall x | at <= x < at + |value| ensures b[x] != COMMA {
      assert b[x] == b[at..at + |value|][x - at];
    }
  }

  /** A period before an element makes a run reaching it. */
  lemma {:induction false} PeriodRepeats(b: Bytes, value: Bytes, at: nat, o: nat)
    requires value != [] && CommaFree(value) && at <= o && Stands(b, value, at) && IsElement(b, value, o)
    requires at < o ==> Periodic(b, |value| + 1, at, o - 1)
    ensures Repeats(b, value, at, o)
    decreases o - at
  {
    var n := |value|;
    var next := at + n + 1;
    if at < o {
      NoCommaInside(b, value, at);
      assert o >= next;
      NextStands(b, value, at);
      PeriodRepeats(b, value, next, o);
      if next < o {
        assert b[next..next + n + 1] == value + [COMMA];
        assert b[next + n] == b[next..next + n + 1][n] == COMMA;
        assert SameByte(b, at + n, n + 1);
      }
      assert b[at..next] == b[at..at + n] + [b[at + n]];
    }
  }

  /** A period behind an element means a whole number of strides. */
  lemma {:induction false} PeriodStrides(b: Bytes, value: Bytes, o: nat, at: nat)
    requires value != [] && CommaFree(value) && o <= at && Stands(b, value, at) && Stands(b, value, o)
    requires o < at ==> b[o + |value|] == COMMA && Periodic(b, |value| + 1, o, at - 1)
    ensures OnStride(o, at, |value| + 1)
    decreases at - o
  {
    var n := |value|;
    var next := o + n + 1;
    if o < at {
      NoCommaInside(b, value, at);
      assert at >= next;
      if next < at {
        NextStands(b, value, o);
        assert SameByte(b, o + n, n + 1);
        PeriodStrides(b, value, next, at);
      }
      StrideAppend(o, at, n + 1);
    }
  }

  /** Erasing at two offsets with the same result: the bytes in between repeat. */
  lemma SameErasePeriod(b: Bytes, n: nat, x: nat, y: nat)
    requires 0 < n && x < y && y + n <= |b| && EraseAt(b, n, x) == EraseAt(b, n, y)
    ensures Periodic(b, n + 1, x, y - 1)
  {
    var e, f, p := EraseAt(b, n, x), EraseAt(b, n, y), n + 1;
    assert e == b[..x] + b[x + n + 1..];
    forall j | x <= j < y - 1 ensures SameByte(b, j, p) {
      assert e[j] == b[j + n + 1];
      assert f[j] == b[j];
    }
  }

  /** At the first hit `at` the loop erases what erasing the element at `o` does exactly when a run of
      the value leads from `at` to it. */
  lemma EraseExact(b: Bytes, value: Bytes, o: nat)
    requires value != [] && CommaFree(value) && IsElement(b, value, o) && StrideFind(b, value, 0) < |b|
    ensures var at := StrideFind(b, value, 0);
            && Stands(b, value, at)
            && (EraseAt(b, |value|, at) == EraseAt(b, |value|, o) <==> at <= o && Repeats(b, value, at, o))
  {
    var at, n := StrideFind(b, value, 0), |value|;
    StrideFindHit(b, value, 0);
    FirstHit(b, value, 0, o);
    if at <= o && Repeats(b, value, at, o) {
      RepeatsErase(b, value, at, o);
    }
    if EraseAt(b, n, at) == EraseAt(b, n, o) {
      if at < o {
        SameErasePeriod(b, n, at, o);
        PeriodRepeats(b, value, at, o);
      } else if o < at {
        EraseBehind(b, value, o, at);
      }
    }
  }

  /** An erasure behind the element is another one, unless it is a whole number of strides away. */
  lemma EraseBehind(b: Bytes, value: Bytes, o: nat, at: nat)
    requires value != [] && CommaFree(value) && o < at && IsElement(b, value, o) && Stands(b, value, at)
    requires EraseAt(b, |value|, o) == EraseAt(b, |value|, at) && OnStride(0, at, |value| + 1)
    ensures OnStride(0, o, |value| + 1)
  {
    SameErasePeriod(b, |value|, o, at);
    PeriodStrides(b, value, o, at);
    StrideBack(0, o, at, |value| + 1);
  }

  // ----- the exact condition --------------------------------------------------------------------------

  /** A list without its first occurrence of a value. */
  function WithoutFirst(l: seq<Bytes>, value: Bytes): seq<Bytes> {
    var i := FirstIndex(l, value);
    if i < |l| then l[..i] + l[i + 1..] else l
  }

  /** If the list does not hold the value, its bytes stand at no multiple of the stride.  If it does,
      they first do so at the first occurrence, or where a run of the value leads to that; and
      what remains is not one empty element, which is stored like nothing. */
  predicate SearchFits(b: Bytes, value: Bytes) {
    var l, at := Split(b), StrideFind(b, value, 0);
    var i := FirstIndex(l, value);
    if i == |l| then forall x :: 0 <= x < |b| && OnStride(0, x, |value| + 1) ==> !Stands(b, value, x)
    else at < |b| && at <= |Before(l, i)| && Repeats(b, value, at, |Before(l, i)|) && WithoutFirst(l, value) != [[]]
  }

  /** The loop finds nothing if and only if the value stands at no stride offset. */
  lemma NoHitExact(b: Bytes, value: Bytes)
    ensures StrideFind(b, value, 0) >= |b| <==>
              forall x :: 0 <= x < |b| && OnStride(0, x, |value| + 1) ==> !Stands(b, value, x)
  {
    var at := StrideFind(b, value, 0);
    FirstHit(b, value, 0, at);
    if at < |b| {
      StrideFindHit(b, value, 0);
      assert Stands(b, value, at);
    }
    forall x | 0 <= x < |b| && OnStride(0, x, |value| + 1) && at >= |b| ensures !Stands(b, value, x) {
      FirstHit(b, value, 0, x);
    }
  }

  lemma CommaBefore(l: seq<Bytes>, i: nat)
    requires i < |l|
    ensures |Before(l, i)| > 0 ==> |Before(l, i)| <= |Join(l)| && Join(l)[|Before(l, i)| - 1] == COMMA
  {
    JoinAround(l, i);
  }

  lemma CommaBehind(l: seq<Bytes>, i: nat)
    requires i < |l|
    ensures var e := |Before(l, i)| + |l[i]|;
            e <= |Join(l)| && (e < |Join(l)| ==> Join(l)[e] == COMMA)
  {
    JoinAround(l, i);
    if i + 1 < |l| {
      var head := Before(l, i) + l[i] + [COMMA];
      assert head[|head| - 1] == COMMA;
    }
  }

  lemma JoinElement(l: seq<Bytes>, i: nat)
    requires i < |l|
    ensures IsElement(Join(l), l[i], |Before(l, i)|)
  {
    ElementBytes(l, i);
    CommaBefore(l, i);
    CommaBehind(l, i);
  }

  lemma ElementStands(b: Bytes, l: seq<Bytes>, i: nat)
    requires l == Split(b) && i < |l|
    ensures IsElement(b, l[i], |Before(l, i)|)
  {
    JoinSplit(b);
    JoinElement(l, i);
  }

  /** Erasing the first occurrence leaves the bytes of the remaining list. */
  lemma RemainingBytes(b: Bytes, value: Bytes)
    requires value != [] && FirstIndex(Split(b), value) < |Split(b)|
    ensures var l := Split(b);
            var o, rest := |Before(l, FirstIndex(l, value))|, WithoutFirst(l, value);
            && o < |b| && o + |value| <= |b| && AllCommaFree(rest)
            && EraseAt(b, |value|, o) == if rest == [] then [] else Join(rest)
  {
    var l := Split(b);
    var i := FirstIndex(l, value);
    JoinSplit(b);
    ElementBytes(l, i);
    if i + 1 < |l| {
      EraseInner(l, i);
    } else {
      EraseLast(l);
      assert l[..i] + l[i + 1..] == l[..i];
    }
  }

  lemma {:induction false} JoinEmpty(l: seq<Bytes>)
    requires l != []
    ensures Join(l) == [] <==> l == [[]]
  {
  }

  /** Bytes stand for a list exactly when they are its join, except that nothing stands for [[]]. */
  lemma FieldsExact(rest: Bytes, l: seq<Bytes>)
    requires AllCommaFree(l)
    ensures Fields(if rest == [] then None else Some(rest)) == l
            <==> rest == (if l == [] then [] else Join(l)) && l != [[]]
  {
    JoinSplit(rest);
    if l != [] {
      SplitJoin(l);
      JoinEmpty(l);
    }
  }

  /** For a non-empty comma-free value and any stored bytes, search-delete is delete-first-occurrence
      if and only if `SearchFits`. */
  lemma SearchDeleteExact(b: Bytes, value: Bytes)
    requires value != [] && CommaFree(value)
    ensures Agrees(Some(b), SearchDelete(value)) <==> SearchFits(b, value)
  {
    var l, at := Split(b), StrideFind(b, value, 0);
    var i := FirstIndex(l, value);
    SearchOutcome(b, value);
    NoHitExact(b, value);
    if i < |l| && at < |b| {
      ElementStands(b, l, i);
      RemainingBytes(b, value);
      EraseExact(b, value, |Before(l, i)|);
      FieldsExact(EraseAt(b, |value|, at), WithoutFirst(l, value));
    }
  }

  /** What agreement comes down to. */
  lemma SearchOutcome(b: Bytes, value: Bytes)
    ensures var l, at := Split(b), StrideFind(b, value, 0);
            && (at < |b| ==> at + |value| <= |b|)
            && (Agrees(Some(b), SearchDelete(value)) <==>
                  if FirstIndex(l, value) == |l| then at >= |b|
                  else at < |b| && var rest := EraseAt(b, |value|, at);
                       Fields(if rest == [] then None else Some(rest)) == WithoutFirst(l, value))
  {
    StrideFindHit(b, value, 0);
  }

  lemma FirstByteErased(b: Bytes)
    requires b != []
    ensures StrideFind(b, [], 0) == 0 && EraseAt(b, 0, 0) == b[1..]
  {
    assert b[0..0] == [];
  }

  lemma FirstFieldShortened(b: Bytes)
    requires b != [] && b[0] != COMMA
    ensures |Split(b)[0]| == CommaAt(b) == 1 + CommaAt(b[1..])
    ensures |Split(b[1..])[0]| == CommaAt(b[1..])
  {
  }

  /** For the empty value it is so if and only if nothing is stored, or the first of at least
      two elements, not both of them empty, is empty. */
  lemma EmptyValueExact(stored: Option<Bytes>)
    ensures Agrees(stored, SearchDelete([])) <==>
              stored.None? || (|stored.value| >= 2 && stored.value[0] == COMMA)
  {
    if stored.Some? && stored.value != [] {
      var b := stored.value;
      var l := Split(b);
      FirstByteErased(b);
      if b[0] == COMMA {
        assert l[0] == [] && l[1..] == Split(b[1..]);
        assert l[..0] + l[1..] == l[1..];
      } else {
        FirstFieldShortened(b);
        var i := FirstIndex(l, []);
        assert i > 0 && (i < |l| ==> (l[..i] + l[i + 1..])[0] == l[0]);
      }
    }
  }

  // ----- what goes wrong otherwise ------------------------------------------------------------------------

  /** A value can be found where no element starts: searching "a" in the list of "ab" succeeds
      and deletes the key. */
  lemma FalseHit()
    ensures var stored := Some([97, 98]);
            [97] !in Fields(stored) && RunBytes(stored, SearchDelete([97])) == Outcome(None, Success, None)
  {
    var b: Bytes := [97, 98];
    SplitCommaFree(b);
    assert b[0..1] == [97] && StrideFind(b, [97], 0) == 0;
    assert EraseAt(b, 1, 0) == [];
  }

  /** An empty element that remains alone is lost: deleting "a" from the list of "a" and "". */
  lemma EmptyElementLost()
    ensures var stored := Some([97, COMMA]);
            && WithoutFirst(Fields(stored), [97]) == [[]]
            && RunBytes(stored, SearchDelete([97])) == Outcome(None, Success, None)
  {
    var b: Bytes := [97, COMMA];
    SplitCommaFree([97]);
    SplitCommaFree([]);
    SplitConcat([97], []);
    assert b == [97] + [COMMA] + [] && Split(b) == [[97], []];
    assert [[97], []][..0] + [[97], []][1..] == [[]];
    assert b[0..1] == [97] && StrideFind(b, [97], 0) == 0;
    assert EraseAt(b, 1, 0) == [];
  }

  /** The bytes of "ab,a". */
  const LONG_SHORT: Bytes := [97, 98, COMMA, 97]

  /** A shorter id is found inside a longer one before it: striking "a" off "ab,a" leaves ",a",
      in which it is still listed. */
  lemma ShorterIdStays()
    ensures Split(LONG_SHORT) == [[97, 98], [97]] && Inside(LONG_SHORT, [97], 0)
    ensures RunBytes(Some(LONG_SHORT), SearchDelete([97])) == Outcome(Some([COMMA, 97]), Success, None)
    ensures Split([COMMA, 97]) == [[], [97]]
  {
    var b := LONG_SHORT;
    SplitCommaFree([97, 98]);
    SplitCommaFree([97]);
    SplitCommaFree([]);
    SplitConcat([97, 98], [97]);
    SplitConcat([], [97]);
    assert b == [97, 98] + [COMMA] + [97] && [COMMA, 97] == [] + [COMMA] + [97];
    assert b[0..1] == [97] && StrideFind(b, [97], 0) == 0;
    assert EraseAt(b, 1, 0) == [COMMA, 97];
  }

  /** With elements of different lengths the stride loses its place: "ab,c" holds
      "c", and the loop does not find it. */
  lemma MixedLengthsMissed()
    ensures var stored := Some([97, 98, COMMA, 99]);
            [99] in Fields(stored) && !Agrees(stored, SearchDelete([99]))
  {
    var b: Bytes := [97, 98, COMMA, 99];
    SplitCommaFree([97, 98]);
    SplitCommaFree([99]);
    SplitConcat([97, 98], [99]);
    assert b == [97, 98] + [COMMA] + [99];
    assert Split(b) == [[97, 98], [99]];
    assert StrideFind(b, [99], 4) == 4;
    assert StrideFind(b, [99], 2) == 4;
    assert StrideFind(b, [99], 0) == 4;
    assert FirstIndex(Split(b), [99]) <= 1;
  }

  // ----- reading inside the buffer -------------------------------------------------------------------------

  /** From `itr` on, the loop compares only bytes of the buffer. */
  predicate Inside(b: Bytes, value: Bytes, itr: nat)
    decreases |b| - itr
  {
    itr >= |b| ||
    (itr + |value| <= |b| && (b[itr..itr + |value|] == value || Inside(b, value, itr + |value| + 1)))
  }

  /** What is left of `x` after taking `p` away as often as possible. */
  function Remainder(x: nat, p: nat): nat
    requires p > 0
  {
    if x < p then x else Remainder(x - p, p)
  }

  /** That is so if and only if the value is found, or whole strides, but for the last comma,
      fill the buffer. */
  lemma {:induction false} InsideExact(b: Bytes, value: Bytes, itr: nat)
    requires itr <= |b|
    ensures Inside(b, value, itr) <==>
              || StrideFind(b, value, itr) < |b|
              || Remainder(|b| - itr, |value| + 1) == 0 || Remainder(|b| - itr, |value| + 1) == |value|
    decreases |b| - itr
  {
    var p := |value| + 1;
    if itr < |b| && !Stands(b, value, itr) && itr + p <= |b| {
      InsideExact(b, value, itr + p);
    }
  }

  /** A list of elements as long as the value is read inside its buffer. */
  lemma {:induction false} UniformInside(b: Bytes, l: seq<Bytes>, value: Bytes, at: nat)
    requires Laid(b, l, |value|, at)
    ensures Inside(b, value, at)
    decreases |l|
  {
    if l != [] {
      UniformInside(b, l[1..], value, at + |value| + 1);
    }
  }
}
