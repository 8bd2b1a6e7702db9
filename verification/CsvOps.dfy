/** The CSV operations of the key-value store, on the bytes under one key.

Each operation is given twice: as a function on the stored bytes and as a plain
list operation.  The lemmas show the first is the second read through
`CsvCodec.Split`.
*/
module CsvOps {
  import opened Options
  import opened CsvCodec

  datatype Status = Success | ErrValue | ErrSystem

  /** What a CSV call leaves under the key, its status, and the value it hands back. */
  datatype Outcome = Outcome(stored: Option<Bytes>, status: Status, out: Option<Bytes>)

  datatype Op =
    | Append(value: Bytes)
    | Prepend(value: Bytes)
    | Pop
    | MatchPop(value: Bytes)
    | SearchDelete(value: Bytes)

  // ----- on bytes ---------------------------------------------------------------

  function ExtendBytes(b: Bytes, value: Bytes, isPrepend: bool): Bytes {
    if isPrepend then value + [COMMA] + b else b + [COMMA] + value
  }

  /** Where the stride of `|value| + 1` first meets `value`; past the end when it never does. */
  function StrideFind(b: Bytes, value: Bytes, itr: nat): (at: nat)
    ensures at >= itr
    decreases |b| - itr
  {
    if itr >= |b| then itr
    else if itr + |value| <= |b| && b[itr..itr + |value|] == value then itr
    else StrideFind(b, value, itr + |value| + 1)
  }

  /** Erase the value at `at` together with one neighbouring comma. */
  function EraseAt(b: Bytes, n: nat, at: nat): Bytes
    requires at < |b| && at + n <= |b|
  {
    if at + n < |b| then b[..at] + b[at + n + 1..]
    else if n < |b| then b[..at - 1]
    else []
  }

  lemma {:induction false} StrideFindHit(b: Bytes, value: Bytes, itr: nat)
    ensures var at := StrideFind(b, value, itr);
            at < |b| ==> at + |value| <= |b| && b[at..at + |value|] == value
    decreases |b| - itr
  {
    if itr < |b| && !(itr + |value| <= |b| && b[itr..itr + |value|] == value) {
      StrideFindHit(b, value, itr + |value| + 1);
    }
  }

  function RunBytes(stored: Option<Bytes>, op: Op): Outcome {
    match stored
    case None =>
      if op.Append? || op.Prepend? then Outcome(Some(op.value), Success, None)
      else Outcome(None, ErrValue, None)
    case Some(b) =>
      match op
      case Append(v) => Outcome(Some(ExtendBytes(b, v, false)), Success, None)
      case Prepend(v) => Outcome(Some(ExtendBytes(b, v, true)), Success, None)
      case Pop => PopBytes(b)
      case MatchPop(v) =>
        if b[..CommaAt(b)] != v then Outcome(stored, ErrSystem, None) else PopBytes(b)
      case SearchDelete(v) =>
        StrideFindHit(b, v, 0);
        var at := StrideFind(b, v, 0);
        if at >= |b| then Outcome(stored, ErrValue, None)
        else
          var rest := EraseAt(b, |v|, at);
          Outcome(if rest == [] then None else Some(rest), Success, None)
  }

  function PopBytes(b: Bytes): Outcome {
    var k := CommaAt(b);
    Outcome(if k == |b| then None else Some(b[k + 1..]), Success, Some(b[..k]))
  }

  // ----- on lists ---------------------------------------------------------------

  datatype ListOutcome = ListOutcome(list: seq<Bytes>, status: Status, out: Option<Bytes>)

  function FirstIndex(l: seq<Bytes>, value: Bytes): (i: nat)
    ensures i <= |l|
    ensures value !in l[..i]
    ensures i < |l| ==> l[i] == value
  {
    if l == [] || l[0] == value then 0 else 1 + FirstIndex(l[1..], value)
  }

  lemma FirstIndexMember(l: seq<Bytes>, value: Bytes)
    ensures FirstIndex(l, value) < |l| <==> value in l
  {
    assert l[..|l|] == l;
  }

  function RunList(l: seq<Bytes>, op: Op): ListOutcome {
    match op
    case Append(v) => ListOutcome(l + Split(v), Success, None)
    case Prepend(v) => ListOutcome(Split(v) + l, Success, None)
    case Pop =>
      if l == [] then ListOutcome(l, ErrValue, None)
      else ListOutcome(l[1..], Success, Some(l[0]))
    case MatchPop(v) =>
      if l == [] then ListOutcome(l, ErrValue, None)
      else if l[0] != v then ListOutcome(l, ErrSystem, None)
      else ListOutcome(l[1..], Success, Some(l[0]))
    case SearchDelete(v) =>
      var i := FirstIndex(l, v);
      if i == |l| then ListOutcome(l, ErrValue, None)
      else ListOutcome(l[..i] + l[i + 1..], Success, None)
  }

  /** The byte outcome is the list outcome, seen through `Fields`. */
  predicate Agrees(stored: Option<Bytes>, op: Op) {
    var r := RunBytes(stored, op);
    ListOutcome(Fields(r.stored), r.status, r.out) == RunList(Fields(stored), op)
  }

  // ----- refinement -------------------------------------------------------------

  /** Append, prepend, pop and match-pop are push-back, push-front, pop-front and
      pop-front-if-equal on every stored value and for every argument. */
  lemma DequeRefinement(stored: Option<Bytes>, op: Op)
    requires !op.SearchDelete?
    ensures Agrees(stored, op)
  {
    match stored
    case None =>
    case Some(b) =>
      if op.Append? {
        SplitConcat(b, op.value);
      } else if op.Prepend? {
        SplitConcat(op.value, b);
      } else {
        var k := CommaAt(b);
        assert b[..k] == Split(b)[0];
        if k < |b| {
          assert Split(b)[1..] == Split(b[k + 1..]);
        }
      }
  }

  /** Bytes before the `i`-th element of a joined list. */
  function Before(l: seq<Bytes>, i: nat): Bytes
    requires i <= |l|
  {
    if i == 0 then [] else Join(l[..i]) + [COMMA]
  }

  lemma JoinAtElement(l: seq<Bytes>, i: nat)
    requires i < |l|
    ensures Join(l) == Before(l, i) + Join(l[i..])
    ensures |Before(l, i + 1)| == |Before(l, i)| + |l[i]| + 1
  {
    if i > 0 {
      JoinConcat(l[..i], l[i..]);
      assert l == l[..i] + l[i..];
      JoinConcat(l[..i], [l[i]]);
      assert l[..i + 1] == l[..i] + [l[i]];
    } else {
      assert l[..1] == [l[0]];
      assert l[0..] == l;
    }
  }

  /** The bytes of a joined list around its `i`-th element. */
  lemma JoinAround(l: seq<Bytes>, i: nat)
    requires i < |l|
    ensures |Before(l, i + 1)| == |Before(l, i)| + |l[i]| + 1
    ensures i + 1 < |l| ==> Join(l) == Before(l, i) + l[i] + [COMMA] + Join(l[i + 1..])
    ensures i + 1 == |l| ==> Join(l) == Before(l, i) + l[i]
  {
    JoinAtElement(l, i);
    var tail := l[i..];
    if i + 1 < |l| {
      assert tail[1..] == l[i + 1..];
      assert Join(tail) == l[i] + [COMMA] + Join(l[i + 1..]);
    }
  }

  lemma ElementBytes(l: seq<Bytes>, i: nat)
    requires i < |l|
    ensures var at := |Before(l, i)|;
            && at + |l[i]| <= |Join(l)|
            && Join(l)[at..at + |l[i]|] == l[i]
            && (at + |l[i]| == |Join(l)| <==> i + 1 == |l|)
  {
    JoinAround(l, i);
  }

  /** One element of width `n` and one comma after another fill `b` from `at` on. */
  predicate Laid(b: Bytes, l: seq<Bytes>, n: nat, at: nat)
    decreases |l|
  {
    if l == [] then at == |b| + 1
    else at + n <= |b| && b[at..at + n] == l[0] && Laid(b, l[1..], n, at + n + 1)
  }

  lemma {:induction false} JoinLaid(l: seq<Bytes>, n: nat, i: nat)
    requires l != [] && Uniform(l, n) && i <= |l|
    ensures Laid(Join(l), l[i..], n, |Before(l, i)|)
    decreases |l| - i
  {
    if i < |l| {
      ElementBytes(l, i);
      BeforeNext(l, i);
      JoinLaid(l, n, i + 1);
      assert l[i..][1..] == l[i + 1..];
    } else {
      assert l[..i] == l;
    }
  }

  /** Where `i` strides over elements of width `n` lead from `at`. */
  function Strides(at: nat, n: nat, i: nat): nat
    decreases i
  {
    if i == 0 then at else Strides(at + n + 1, n, i - 1)
  }

  lemma {:induction false} StridesStep(at: nat, n: nat, i: nat)
    ensures Strides(at, n, i + 1) == Strides(at, n, i) + n + 1
    decreases i
  {
    if i > 0 {
      StridesStep(at + n + 1, n, i - 1);
    }
  }

  lemma {:induction false} BeforeStrides(l: seq<Bytes>, n: nat, i: nat)
    requires Uniform(l, n) && i <= |l|
    ensures |Before(l, i)| == Strides(0, n, i)
    decreases i
  {
    if i > 0 {
      BeforeStrides(l, n, i - 1);
      BeforeNext(l, i - 1);
      StridesStep(0, n, i - 1);
    }
  }

  lemma StrideFindStep(b: Bytes, value: Bytes, at: nat)
    requires at + |value| <= |b| && value != []
    ensures StrideFind(b, value, at) ==
            if b[at..at + |value|] == value then at else StrideFind(b, value, at + |value| + 1)
  {
  }

  /** Striding over a uniform list meets exactly its first occurrence. */
  lemma {:induction false} StrideFindsFirst(b: Bytes, l: seq<Bytes>, value: Bytes, at: nat)
    requires value != [] && Laid(b, l, |value|, at)
    ensures StrideFind(b, value, at) == Strides(at, |value|, FirstIndex(l, value))
    decreases |l|
  {
    if l != [] {
      StrideFindStep(b, value, at);
      if l[0] != value {
        StrideFindsFirst(b, l[1..], value, at + |value| + 1);
      }
    }
  }

  lemma BeforeNext(l: seq<Bytes>, i: nat)
    requires i < |l|
    ensures |Before(l, i + 1)| == |Before(l, i)| + |l[i]| + 1
  {
    JoinAtElement(l, i);
  }

  /** Erasing the `i`-th element of a joined list removes it and nothing else. */
  lemma EraseInner(l: seq<Bytes>, i: nat)
    requires i + 1 < |l|
    ensures var at := |Before(l, i)|;
            && at + |l[i]| < |Join(l)|
            && EraseAt(Join(l), |l[i]|, at) == Join(l[..i] + l[i + 1..])
  {
    var b, at, n := Join(l), |Before(l, i)|, |l[i]|;
    JoinAround(l, i);
    assert b[at + n + 1..] == Join(l[i + 1..]);
    assert b[..at] == Before(l, i);
    if i > 0 {
      JoinConcat(l[..i], l[i + 1..]);
    } else {
      assert l[..0] + l[1..] == l[1..];
    }
  }

  lemma EraseLast(l: seq<Bytes>)
    requires |l| > 0 && |l[|l| - 1]| > 0
    ensures var i := |l| - 1;
            var at := |Before(l, i)|;
            && at < |Join(l)| && at + |l[i]| == |Join(l)|
            && EraseAt(Join(l), |l[i]|, at) == if i == 0 then [] else Join(l[..i])
  {
    var i := |l| - 1;
    JoinAround(l, i);
    var b, at := Join(l), |Before(l, i)|;
    if i > 0 {
      assert b[..at - 1] == Join(l[..i]);
    }
  }

  /** Deleting element `i` of a uniform list leaves the packed remaining list. */
  lemma DeletedBytes(l: seq<Bytes>, i: nat)
    requires i < |l| && AllCommaFree(l) && l[i] != [] && Uniform(l, |l[i]|)
    ensures var at := |Before(l, i)|;
            && at < |Join(l)| && at + |l[i]| <= |Join(l)|
            && var rest := EraseAt(Join(l), |l[i]|, at);
            Fields(if rest == [] then None else Some(rest)) == l[..i] + l[i + 1..]
  {
    var remaining := l[..i] + l[i + 1..];
    JoinAround(l, i);
    if i + 1 < |l| {
      EraseInner(l, i);
    } else {
      EraseLast(l);
      assert remaining == l[..i];
    }
    if remaining != [] {
      assert |remaining[0]| > 0;
      JoinNonEmpty(remaining);
      SplitJoin(remaining);
    }
  }

  /** Search-delete is delete-first-occurrence when all elements and the searched
      value have one positive length. */
  lemma SearchDeleteRefinement(stored: Option<Bytes>, value: Bytes)
    requires value != [] && Uniform(Fields(stored), |value|)
    ensures Agrees(stored, SearchDelete(value))
  {
    if stored.Some? {
      var l := Split(stored.value);
      JoinSplit(stored.value);
      assert l[0..] == l;
      JoinLaid(l, |value|, 0);
      StrideFindsFirst(stored.value, l, value, 0);
      var i := FirstIndex(l, value);
      BeforeStrides(l, |value|, i);
      if i < |l| {
        DeletedBytes(l, i);
      } else {
        BeforeEnd(l);
      }
    }
  }

  lemma BeforeEnd(l: seq<Bytes>)
    requires l != []
    ensures |Before(l, |l|)| == |Join(l)| + 1
  {
    assert l[..|l|] == l;
  }

  lemma JoinNonEmpty(l: seq<Bytes>)
    requires l != [] && |l[0]| > 0
    ensures Join(l) != []
  {
  }
}
