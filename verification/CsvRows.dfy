/** The list rows of the work-order tables as the comma-separated values that store them.

Ids are written with comma-free codes of one positive length, different for
different ids.  Then each list operation of the protocol is the CSV call the
code makes for it.
*/
module CsvRows {
  import opened Options
  import opened CsvCodec
  import opened CsvOps
  import opened CsvSearch
  import W = WorkOrders

  type Codes = map<W.Id, Bytes>

  ghost predicate Coded(codes: Codes, n: nat) {
    && n > 0 && (forall id :: id in codes ==> CommaFree(codes[id]) && |codes[id]| == n)
    && forall x, y :: x in codes && y in codes && codes[x] == codes[y] ==> x == y
  }

  predicate Covers(codes: Codes, row: seq<W.Id>) {
    forall i :: 0 <= i < |row| ==> row[i] in codes
  }

  function Encode(codes: Codes, row: seq<W.Id>): (l: seq<Bytes>)
    requires Covers(codes, row)
    ensures |l| == |row| && forall i :: 0 <= i < |row| ==> l[i] == codes[row[i]]
  {
    if row == [] then [] else [codes[row[0]]] + Encode(codes, row[1..])
  }

  /** What is stored for a row; an empty one has no key. */
  function Cell(codes: Codes, row: seq<W.Id>): Option<Bytes>
    requires Covers(codes, row)
  {
    Pack(Encode(codes, row))
  }

  lemma CellFields(codes: Codes, n: nat, row: seq<W.Id>)
    requires Coded(codes, n) && Covers(codes, row)
    ensures Fields(Cell(codes, row)) == Encode(codes, row)
  {
    PackFields(None, Encode(codes, row));
  }

  /** A call that leaves the list of a row leaves the cell of that row. */
  lemma CellOf(codes: Codes, stored: Option<Bytes>, row: seq<W.Id>)
    requires Covers(codes, row) && Fields(stored) == Encode(codes, row)
    ensures stored == Cell(codes, row)
  {
    PackFields(stored, []);
  }

  lemma AppendRow(codes: Codes, n: nat, row: seq<W.Id>, id: W.Id)
    requires Coded(codes, n) && Covers(codes, row) && id in codes
    ensures RunBytes(Cell(codes, row), Append(codes[id])) == Outcome(Cell(codes, row + [id]), Success, None)
  {
    var stored := Cell(codes, row);
    CellFields(codes, n, row);
    DequeRefinement(stored, Append(codes[id]));
    SplitCommaFree(codes[id]);
    CellOf(codes, RunBytes(stored, Append(codes[id])).stored, row + [id]);
  }

  /** `csv_pop`, and `csv_match_pop` of an id. */
  lemma PopRow(codes: Codes, n: nat, row: seq<W.Id>, id: W.Id)
    requires Coded(codes, n) && Covers(codes, row) && id in codes
    ensures var stored := Cell(codes, row);
            if row == [] then
              RunBytes(stored, Pop).status != Success && RunBytes(stored, MatchPop(codes[id])).status != Success
            else
              var popped := Outcome(Cell(codes, row[1..]), Success, Some(codes[row[0]]));
              && RunBytes(stored, Pop) == popped
              && RunBytes(stored, MatchPop(codes[id])) == if row[0] == id then popped else Outcome(stored, ErrSystem, None)
  {
    var stored := Cell(codes, row);
    CellFields(codes, n, row);
    DequeRefinement(stored, Pop);
    DequeRefinement(stored, MatchPop(codes[id]));
    if row != [] {
      assert Encode(codes, row)[1..] == Encode(codes, row[1..]);
      CellOf(codes, RunBytes(stored, Pop).stored, row[1..]);
      assert codes[row[0]] == codes[id] <==> row[0] == id;
      if row[0] == id {
        CellOf(codes, RunBytes(stored, MatchPop(codes[id])).stored, row[1..]);
      } else {
        CellOf(codes, RunBytes(stored, MatchPop(codes[id])).stored, row);
      }
    }
  }

  lemma WithoutFirstStep(l: seq<Bytes>, v: Bytes)
    requires l != []
    ensures WithoutFirst(l, v) == if l[0] == v then l[1..] else [l[0]] + WithoutFirst(l[1..], v)
  {
    var i := FirstIndex(l[1..], v);
    if l[0] == v {
      assert l[..0] + l[1..] == l[1..];
    } else if i < |l| - 1 {
      assert l[..i + 1] + l[i + 2..] == [l[0]] + (l[1..][..i] + l[1..][i + 1..]);
    } else {
      assert l == [l[0]] + l[1..];
    }
  }

  lemma {:induction false} EncodeWithout(codes: Codes, n: nat, row: seq<W.Id>, id: W.Id)
    requires Coded(codes, n) && Covers(codes, row) && id in codes
    ensures Covers(codes, W.Without(row, id))
    ensures WithoutFirst(Encode(codes, row), codes[id]) == Encode(codes, W.Without(row, id))
  {
    if row != [] {
      WithoutFirstStep(Encode(codes, row), codes[id]);
      assert Encode(codes, row)[1..] == Encode(codes, row[1..]);
      if row[0] != id {
        EncodeWithout(codes, n, row[1..], id);
        assert W.Without(row, id)[1..] == W.Without(row[1..], id);
      }
    }
  }

  lemma EncodeMember(codes: Codes, n: nat, row: seq<W.Id>, id: W.Id)
    requires Coded(codes, n) && Covers(codes, row) && id in codes
    ensures codes[id] in Encode(codes, row) <==> id in row
  {
    if id in row {
      var i :| 0 <= i < |row| && row[i] == id;
      assert Encode(codes, row)[i] == codes[id];
    }
  }

  /** `csv_search_delete` strikes one id off. */
  lemma SearchDeleteRow(codes: Codes, n: nat, row: seq<W.Id>, id: W.Id)
    requires Coded(codes, n) && Covers(codes, row) && id in codes
    ensures Covers(codes, W.Without(row, id))
    ensures RunBytes(Cell(codes, row), SearchDelete(codes[id])) ==
            if id in row then Outcome(Cell(codes, W.Without(row, id)), Success, None)
            else Outcome(Cell(codes, row), ErrValue, None)
  {
    var stored := Cell(codes, row);
    CellFields(codes, n, row);
    SearchDeleteRefinement(stored, codes[id]);
    FirstIndexMember(Encode(codes, row), codes[id]);
    EncodeWithout(codes, n, row, id);
    EncodeMember(codes, n, row, id);
    CellOf(codes, RunBytes(stored, SearchDelete(codes[id])).stored, W.Without(row, id));
    if id !in row {
      CellOf(codes, RunBytes(stored, SearchDelete(codes[id])).stored, row);
    }
  }
}
