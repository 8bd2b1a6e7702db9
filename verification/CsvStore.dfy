/** One table of the LMDB-backed store and the byte loops of its CSV calls.

`rows` is LMDB itself: single-key get, put and delete on it are atomic.  Each CSV
method is proved against `CsvOps.RunBytes`, and through it against the list
operation it stands for.
*/
module CsvStore {
  import opened Options
  import opened CsvCodec
  import opened CsvOps
  import opened CsvSearch

  /** `rows` with what a call left stored under `key`. */
  function WithStored(rows: map<Bytes, Bytes>, key: Bytes, stored: Option<Bytes>): map<Bytes, Bytes> {
    match stored
    case None => rows - {key}
    case Some(b) => rows[key := b]
  }

  /** Bytes up to the first comma, gathered one at a time. */
  method FirstField(buffer: Bytes) returns (first: Bytes, isLast: bool)
    ensures first == buffer[..CommaAt(buffer)]
    ensures isLast <==> CommaFree(buffer)
  {
    first, isLast := [], true;
    var i := 0;
    while i < |buffer|
      invariant 0 <= i <= |buffer|
      invariant first == buffer[..i] && CommaFree(first) && isLast
    {
      if buffer[i] == COMMA {
        isLast := false;
        CommaAtUnique(buffer, i);
        return;
      }
      first := first + [buffer[i]];
      i := i + 1;
    }
    assert buffer[..i] == buffer;
    CommaAtUnique(buffer, i);
  }

  /** Cut out the value found at `itr`, with the comma after it or, for the last one, before it. */
  method EraseValue(buffer: Bytes, n: nat, itr: nat) returns (rest: Bytes)
    requires itr < |buffer| && itr + n <= |buffer|
    ensures rest == EraseAt(buffer, n, itr)
  {
    rest := buffer;
    if itr + n < |rest| {
      rest := rest[..itr] + rest[itr + n + 1..];
    } else if n < |rest| {
      rest := rest[..itr - 1];
    } else if n == |rest| {
      rest := rest[..itr] + rest[itr + n..];
    }
  }

  /** The search loop, striding by the length of the value and one comma. */
  method SearchErase(buffer: Bytes, value: Bytes) returns (found: bool, rest: Bytes)
    requires Inside(buffer, value, 0)
    ensures found <==> StrideFind(buffer, value, 0) < |buffer|
    ensures !found ==> rest == buffer
    ensures found ==> var at := StrideFind(buffer, value, 0);
                      at + |value| <= |buffer| && rest == EraseAt(buffer, |value|, at)
  {
    found, rest := false, buffer;
    var itr := 0;
    while itr < |buffer|
      invariant Inside(buffer, value, itr)
      invariant StrideFind(buffer, value, itr) == StrideFind(buffer, value, 0)
      invariant !found && rest == buffer
      decreases |buffer| - itr
    {
      if buffer[itr..itr + |value|] == value {
        rest := EraseValue(buffer, |value|, itr);
        found := true;
        break;
      }
      itr := itr + |value| + 1;
    }
  }

  /** What the two pops mean on lists. */
  lemma PopMeaning(stored: Option<Bytes>, value: Bytes, isMatch: bool)
    ensures var r, l := RunBytes(stored, PopOp(value, isMatch)), Fields(stored);
            && (r.status == Success <==> l != [] && (isMatch ==> l[0] == value))
            && (r.status == Success ==> r.out.Some? && l == [r.out.value] + Fields(r.stored)
                                        && (isMatch ==> r.out.value == value))
            && (r.status != Success ==> r.stored == stored)
  {
    DequeRefinement(stored, PopOp(value, isMatch));
  }

  /** When search-delete is delete-first-occurrence: for a comma-free value exactly then. */
  predicate DeletesFirst(stored: Option<Bytes>, value: Bytes) {
    stored.None? ||
    if value == [] then |stored.value| >= 2 && stored.value[0] == COMMA else SearchFits(stored.value, value)
  }

  lemma DeletesFirstExact(stored: Option<Bytes>, value: Bytes)
    requires CommaFree(value)
    ensures Agrees(stored, SearchDelete(value)) <==> DeletesFirst(stored, value)
  {
    if value == [] {
      EmptyValueExact(stored);
    } else if stored.Some? {
      SearchDeleteExact(stored.value, value);
    }
  }

  /** Ids of one length are always searched inside the buffer and deleted right. */
  lemma IdsDeletedRight(stored: Option<Bytes>, value: Bytes)
    requires value != [] && CommaFree(value) && Uniform(Fields(stored), |value|)
    ensures DeletesFirst(stored, value) && (stored.Some? ==> Inside(stored.value, value, 0))
  {
    SearchDeleteRefinement(stored, value);
    DeletesFirstExact(stored, value);
    if stored.Some? {
      var l := Split(stored.value);
      JoinSplit(stored.value);
      assert l[0..] == l;
      JoinLaid(l, |value|, 0);
      UniformInside(stored.value, l, value, 0);
    }
  }

  /** What search-delete means on lists. */
  lemma SearchMeaning(stored: Option<Bytes>, value: Bytes)
    requires CommaFree(value)
    ensures var r, l := RunBytes(stored, SearchDelete(value)), Fields(stored);
            && (DeletesFirst(stored, value) <==>
                  (r.status == Success <==> value in l) && Fields(r.stored) == WithoutFirst(l, value))
            && (r.status != Success ==> r.stored == stored)
  {
    DeletesFirstExact(stored, value);
    FirstIndexMember(Fields(stored), value);
  }

  function PopOp(value: Bytes, isMatch: bool): Op {
    if isMatch then MatchPop(value) else Pop
  }

  lemma StoredSame(rows: map<Bytes, Bytes>, key: Bytes)
    ensures key in rows ==> rows[key := rows[key]] == rows
    ensures key !in rows ==> rows - {key} == rows
  {
  }

  class Table {
    var rows: map<Bytes, Bytes>

    constructor ()
      ensures rows == map[]
    {
      rows := map[];
    }

    function Stored(key: Bytes): Option<Bytes>
      reads this
    {
      if key in rows then Some(rows[key]) else None
    }

    /** The list kept under `key`. */
    function List(key: Bytes): seq<Bytes>
      reads this
    {
      Fields(Stored(key))
    }

    method GetValueSize(key: Bytes) returns (isPresent: bool, size: nat)
      ensures isPresent <==> Stored(key).Some?
      ensures isPresent ==> size == |Stored(key).value|
    {
      isPresent := key in rows;
      size := if isPresent then |rows[key]| else 0;
    }

    /** Fails unless the caller's buffer has exactly the stored size. */
    method Get(key: Bytes, size: nat) returns (status: Status, value: Bytes)
      ensures status == Success <==> Stored(key).Some? && |Stored(key).value| == size
      ensures status == Success ==> Some(value) == Stored(key)
      ensures status != Success ==> status == ErrValue
    {
      if key in rows && |rows[key]| == size {
        return Success, rows[key];
      }
      return ErrValue, [];
    }

    method Put(key: Bytes, value: Bytes) returns (status: Status)
      modifies this
      ensures status == Success && rows == WithStored(old(rows), key, Some(value))
      ensures Stored(key) == Some(value) && forall k :: k != key ==> Stored(k) == old(Stored(k))
    {
      rows := rows[key := value];
      status := Success;
    }

    /** Deleting a missing key is LMDB's not-found, reported as a system error. */
    method Del(key: Bytes) returns (status: Status)
      modifies this
      ensures rows == WithStored(old(rows), key, None)
      ensures status == if old(Stored(key)).Some? then Success else ErrSystem
    {
      status := if key in rows then Success else ErrSystem;
      rows := rows - {key};
    }

    method CsvExtend(key: Bytes, value: Bytes, isPrepend: bool) returns (status: Status)
      modifies this
      ensures var op := if isPrepend then Prepend(value) else Append(value);
              && rows == WithStored(old(rows), key, RunBytes(old(Stored(key)), op).stored)
              && status == Success
      ensures List(key) == if isPrepend then Split(value) + old(List(key)) else old(List(key)) + Split(value)
      ensures forall k :: k != key ==> Stored(k) == old(Stored(k))
    {
      ghost var op := if isPrepend then Prepend(value) else Append(value);
      DequeRefinement(Stored(key), op);
      var isPresent, size := GetValueSize(key);
      if !isPresent {
        status := Put(key, value);
        return;
      }
      var buffer;
      status, buffer := Get(key, size);
      if isPrepend {
        buffer := value + [COMMA] + buffer;
      } else {
        buffer := buffer + [COMMA];
        buffer := buffer + value;
      }
      status := Put(key, buffer);
    }

    /** Pop the first element; with `isMatch`, only when it equals `value`. */
    method CsvPop(key: Bytes, value: Bytes, isMatch: bool) returns (status: Status, out: Bytes)
      modifies this
      ensures var r := RunBytes(old(Stored(key)), PopOp(value, isMatch));
              && rows == WithStored(old(rows), key, r.stored)
              && status == r.status
              && (status == Success ==> r.out == Some(out))
      ensures status == Success ==> old(List(key)) == [out] + List(key)
      ensures status == Success && isMatch ==> out == value
      ensures status == Success <==> old(List(key)) != [] && (isMatch ==> old(List(key))[0] == value)
      ensures status != Success ==> rows == old(rows)
      ensures status == ErrValue <==> old(Stored(key)).None?
      ensures status == ErrSystem <==> isMatch && old(Stored(key)).Some? && old(List(key))[0] != value
      ensures forall k :: k != key ==> Stored(k) == old(Stored(k))
    {
      PopMeaning(Stored(key), value, isMatch);
      StoredSame(rows, key);
      out := [];
      var isPresent, size := GetValueSize(key);
      if !isPresent {
        status := ErrValue;
        return;
      }
      var buffer;
      status, buffer := Get(key, size);
      var first, isLast := FirstField(buffer);
      if isMatch && value != first {
        status := ErrSystem;
        return;
      }
      if isLast {
        out := buffer;
        assert buffer[..CommaAt(buffer)] == buffer;
        status := Del(key);
        return;
      }
      out := first;
      buffer := buffer[|out| + 1..];
      status := Put(key, buffer);
    }

    method CsvSearchDelete(key: Bytes, value: Bytes) returns (status: Status)
      requires Stored(key).Some? ==> Inside(Stored(key).value, value, 0)
      modifies this
      ensures var r := RunBytes(old(Stored(key)), SearchDelete(value));
              rows == WithStored(old(rows), key, r.stored) && status == r.status
      ensures CommaFree(value) ==>
                (DeletesFirst(old(Stored(key)), value) <==>
                   (status == Success <==> value in old(List(key))) && List(key) == WithoutFirst(old(List(key)), value))
      ensures status != Success ==> status == ErrValue && rows == old(rows)
      ensures forall k :: k != key ==> Stored(k) == old(Stored(k))
    {
      if CommaFree(value) {
        SearchMeaning(Stored(key), value);
      }
      StoredSame(rows, key);
      var isPresent, size := GetValueSize(key);
      if !isPresent {
        status := ErrValue;
        return;
      }
      var buffer;
      status, buffer := Get(key, size);
      var found, rest := SearchErase(buffer, value);
      if !found {
        status := ErrValue;
        return;
      }
      if |rest| == 0 {
        status := Del(key);
        return;
      }
      status := Put(key, rest);
    }
  }

  /** Two ids of different lengths are queued up under a key and the shorter one is struck off: the
      call succeeds, and the id is still listed. */
  method ShorterIdStaysListed(key: Bytes) returns (t: Table, status: Status)
    ensures fresh(t) && status == Success && t.List(key) == [[], [97]]
  {
    t := new Table();
    status := t.CsvExtend(key, [97, 98], false);
    assert t.Stored(key) == Some([97, 98]);
    status := t.CsvExtend(key, [97], false);
    assert [97, 98] + [COMMA] + [97] == LONG_SHORT;
    assert t.Stored(key) == Some(LONG_SHORT);
    ShorterIdStays();
    status := t.CsvSearchDelete(key, [97]);
  }
}
