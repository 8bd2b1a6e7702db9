/** Comma-separated byte strings and the lists they stand for.

The shared key-value store keeps a list of ids under one key as a single byte
string, the ids joined by commas.  A missing key is the empty list.  `Split` and
`Join` are mutually inverse between byte strings and non-empty lists of
comma-free strings, and `Split` turns a comma between two byte strings into list
concatenation; everything the CSV operations promise follows from those facts.
*/
module CsvCodec {
  import opened Options

  newtype byte = x: int | 0 <= x < 256

  type Bytes = seq<byte>

  const COMMA: byte := 44

  predicate CommaFree(b: Bytes) {
    COMMA !in b
  }

  predicate AllCommaFree(l: seq<Bytes>) {
    forall i :: 0 <= i < |l| ==> CommaFree(l[i])
  }

  /** Every element has length `n`: the shape `csv_search_delete` strides over. */
  predicate Uniform(l: seq<Bytes>, n: nat) {
    forall i :: 0 <= i < |l| ==> |l[i]| == n
  }

  /** Position of the first comma, or the length when there is none. */
  function CommaAt(b: Bytes): (k: nat)
    ensures k <= |b|
    ensures CommaFree(b[..k])
    ensures k < |b| ==> b[k] == COMMA
  {
    if b == [] || b[0] == COMMA then 0 else 1 + CommaAt(b[1..])
  }

  /** The list a stored byte string stands for. */
  function Split(b: Bytes): (l: seq<Bytes>)
    ensures l != []
    ensures AllCommaFree(l)
    decreases |b|
  {
    var k := CommaAt(b);
    if k == |b| then [b] else [b[..k]] + Split(b[k + 1..])
  }

  function Join(l: seq<Bytes>): Bytes
    requires l != []
  {
    if |l| == 1 then l[0] else l[0] + [COMMA] + Join(l[1..])
  }

  /** What is stored under a key, read as a list. */
  function Fields(stored: Option<Bytes>): seq<Bytes> {
    match stored
    case None => []
    case Some(b) => Split(b)
  }

  /** The stored form of a list. */
  function Pack(l: seq<Bytes>): Option<Bytes> {
    if l == [] then None else Some(Join(l))
  }

  lemma CommaAtUnique(b: Bytes, k: nat)
    requires k <= |b|
    requires CommaFree(b[..k])
    requires k < |b| ==> b[k] == COMMA
    ensures CommaAt(b) == k
  {
  }

  lemma SeamSlices(a: Bytes, b: Bytes, k: nat)
    requires k <= |a|
    ensures var whole := a + [COMMA] + b;
            && whole[..k] == a[..k] && a[..|a|] == a
            && whole[k] == (if k < |a| then a[k] else COMMA)
            && whole[k + 1..] == if k < |a| then a[k + 1..] + [COMMA] + b else b
  {
  }

  lemma ConsConcat(first: Bytes, l: seq<Bytes>, m: seq<Bytes>)
    ensures [first] + (l + m) == [first] + l + m
  {
  }

  lemma SplitFirst(b: Bytes, first: Bytes, rest: Bytes)
    requires CommaAt(b) < |b| && first == b[..CommaAt(b)] && rest == b[CommaAt(b) + 1..]
    ensures Split(b) == [first] + Split(rest)
  {
  }

  lemma SplitCommaFree(b: Bytes)
    requires CommaFree(b)
    ensures Split(b) == [b]
  {
    WholeSlice(b);
    CommaAtUnique(b, |b|);
  }

  lemma WholeSlice(b: Bytes)
    ensures b[..|b|] == b
  {
  }

  /** A comma between two byte strings is concatenation of their lists. */
  lemma {:induction false} SplitConcat(a: Bytes, b: Bytes)
    ensures Split(a + [COMMA] + b) == Split(a) + Split(b)
    decreases |a|
  {
    var k := CommaAt(a);
    SeamSlices(a, b, k);
    CommaAtUnique(a + [COMMA] + b, k);
    if k < |a| {
      SplitConcat(a[k + 1..], b);
      SplitFirst(a + [COMMA] + b, a[..k], a[k + 1..] + [COMMA] + b);
      SplitFirst(a, a[..k], a[k + 1..]);
      ConsConcat(a[..k], Split(a[k + 1..]), Split(b));
    } else {
      SplitFirst(a + [COMMA] + b, a, b);
      SplitCommaFree(a);
    }
  }

  lemma HeadAndTail(l: seq<Bytes>)
    requires l != []
    ensures l == [l[0]] + l[1..]
  {
  }

  /** Reading a joined list back gives the list. */
  lemma {:induction false} SplitJoin(l: seq<Bytes>)
    requires l != [] && AllCommaFree(l)
    ensures Split(Join(l)) == l
    decreases |l|
  {
    SplitCommaFree(l[0]);
    if |l| > 1 {
      SplitJoin(l[1..]);
      SplitConcat(l[0], Join(l[1..]));
      HeadAndTail(l);
    }
  }

  lemma JoinCons(first: Bytes, others: seq<Bytes>)
    requires others != []
    ensures Join([first] + others) == first + [COMMA] + Join(others)
  {
    assert ([first] + others)[1..] == others;
  }

  lemma CutAround(b: Bytes, k: nat)
    requires k < |b|
    ensures b[..k] + [b[k]] + b[k + 1..] == b
  {
  }

  /** Joining the list a byte string stands for gives the byte string. */
  lemma {:induction false} JoinSplit(b: Bytes)
    ensures Join(Split(b)) == b
    decreases |b|
  {
    var k := CommaAt(b);
    if k < |b| {
      var first, rest := b[..k], b[k + 1..];
      JoinSplit(rest);
      JoinCons(first, Split(rest));
      CutAround(b, k);
    }
  }

  /** Stored values and lists of comma-free strings are in one-to-one correspondence. */
  lemma PackFields(stored: Option<Bytes>, l: seq<Bytes>)
    ensures Pack(Fields(stored)) == stored
    ensures AllCommaFree(l) ==> Fields(Pack(l)) == l
  {
    if stored.Some? {
      JoinSplit(stored.value);
    }
    if l != [] && AllCommaFree(l) {
      SplitJoin(l);
    }
  }

  /** `Join` of a concatenation puts one comma at the seam. */
  lemma {:induction false} JoinConcat(l: seq<Bytes>, m: seq<Bytes>)
    requires l != [] && m != []
    ensures Join(l + m) == Join(l) + [COMMA] + Join(m)
    decreases |l|
  {
    if |l| == 1 {
      assert (l + m)[1..] == m;
    } else {
      JoinConcat(l[1..], m);
      assert (l + m)[1..] == l[1..] + m;
    }
  }
}
