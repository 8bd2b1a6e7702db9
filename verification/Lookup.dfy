/** Paged lookups of workers and of work-order receipts.

A lookup walks the pool of ids and reports those whose stored record meets the
criteria of the query; lookup-next first skips ids up to and including a tag.
The schema of each request says which names it may hold.  It is checked first,
so what the walk reads under another name is never there.
*/
module Lookup {
  import opened Options

  datatype Key = Key(text: string)
  const NO_TAG := Key("")
  type Record = map<string, string>

  const WORKER_CRITERIA := ["workerType", "organizationId", "applicationTypeId"]
  const RECEIPT_CRITERIA := ["workerServiceId", "workerId", "requesterId", "requestCreateStatus"]

  /** `store` may lack an id of the pool; workers then match, receipts do not. */
  datatype Query = Query(store: map<Key, Record>, criteria: seq<string>, wanted: Record, keepMissing: bool)

  datatype Page = Page(totalCount: nat, lookupTag: Key, ids: seq<Key>)

  datatype Reply = Refused | Exception | Found(page: Page)

  // ----- specification -----------------------------------------------------------------------------

  datatype Verdict = Match | Mismatch | NoField

  /** The criteria the query names, in order, up to the first that fails or that the record lacks. */
  function Check(record: Record, criteria: seq<string>, wanted: Record): Verdict {
    if criteria == [] then Match
    else
      var c := criteria[0];
      if c in wanted && c !in record then NoField
      else if c in wanted && record[c] != wanted[c] then Mismatch
      else Check(record, criteria[1..], wanted)
  }

  predicate Meets(record: Record, wanted: Record, c: string) {
    c in wanted ==> c in record && record[c] == wanted[c]
  }

  /** The `i`-th criterion is named, the record lacks it, and it meets all before it. */
  predicate FirstLacked(record: Record, criteria: seq<string>, wanted: Record, i: nat)
    requires i < |criteria|
  {
    && criteria[i] in wanted && criteria[i] !in record
    && forall j :: 0 <= j < i ==> Meets(record, wanted, criteria[j])
  }

  /** A record matches if and only if it has the wanted value for every criterion the query names. */
  lemma {:induction false} CheckExact(record: Record, criteria: seq<string>, wanted: Record)
    ensures Check(record, criteria, wanted) == Match <==>
              forall i :: 0 <= i < |criteria| ==> Meets(record, wanted, criteria[i])
  {
    if criteria != [] {
      CheckExact(record, criteria[1..], wanted);
      assert forall i :: 0 <= i < |criteria[1..]| ==> criteria[1..][i] == criteria[i + 1];
      if Check(record, criteria, wanted) == Match {
        forall i | 0 <= i < |criteria| ensures Meets(record, wanted, criteria[i]) {
          assert i > 0 ==> Meets(record, wanted, criteria[1..][i - 1]);
        }
      } else {
        assert Meets(record, wanted, criteria[0]) ==> Check(record, criteria[1..], wanted) != Match;
      }
    }
  }

  /** Checking a record is an exception if and only if it lacks a named criterion and meets all
      before that. */
  lemma {:induction false} NoFieldExact(record: Record, criteria: seq<string>, wanted: Record)
    ensures Check(record, criteria, wanted) == NoField <==>
              exists i :: 0 <= i < |criteria| && FirstLacked(record, criteria, wanted, i)
  {
    if criteria != [] {
      var tail := criteria[1..];
      NoFieldExact(record, tail, wanted);
      forall i | 0 <= i < |tail| && Meets(record, wanted, criteria[0])
        ensures FirstLacked(record, criteria, wanted, i + 1) <==> FirstLacked(record, tail, wanted, i)
      {
        LackedBehind(record, criteria, wanted, i);
      }
      if Check(record, criteria, wanted) == NoField {
        if criteria[0] in wanted && criteria[0] !in record {
          assert FirstLacked(record, criteria, wanted, 0);
        } else {
          var i :| 0 <= i < |tail| && FirstLacked(record, tail, wanted, i);
          assert FirstLacked(record, criteria, wanted, i + 1);
        }
      }
      if i :| 0 <= i < |criteria| && FirstLacked(record, criteria, wanted, i) {
        if i > 0 {
          assert Meets(record, wanted, criteria[0]);
          assert FirstLacked(record, tail, wanted, i - 1);
        }
      }
    }
  }

  lemma LackedBehind(record: Record, criteria: seq<string>, wanted: Record, i: nat)
    requires i + 1 < |criteria| && Meets(record, wanted, criteria[0])
    ensures FirstLacked(record, criteria, wanted, i + 1) <==> FirstLacked(record, criteria[1..], wanted, i)
  {
    var tail := criteria[1..];
    assert forall j :: 0 <= j < |tail| ==> tail[j] == criteria[j + 1];
    if FirstLacked(record, tail, wanted, i) {
      forall j | 0 <= j < i + 1 ensures Meets(record, wanted, criteria[j]) {
        assert j > 0 ==> Meets(record, wanted, tail[j - 1]);
      }
    }
  }

  /** Checking three criteria in turn, the record lacks one that is named. */
  predicate LacksOneOf(record: Record, wanted: Record, a: string, b: string, c: string) {
    || (a in wanted && a !in record)
    || (Meets(record, wanted, a) && b in wanted && b !in record)
    || (Meets(record, wanted, a) && Meets(record, wanted, b) && c in wanted && c !in record)
  }

  predicate MeetsAll(record: Record, wanted: Record, a: string, b: string, c: string) {
    Meets(record, wanted, a) && Meets(record, wanted, b) && Meets(record, wanted, c)
  }

  lemma ThreeCriteria(record: Record, wanted: Record, a: string, b: string, c: string, others: seq<string>)
    requires forall i :: 0 <= i < |others| ==> others[i] !in wanted
    ensures var criteria := [a, b, c] + others;
            && (Check(record, criteria, wanted) == Match <==> MeetsAll(record, wanted, a, b, c))
            && (Check(record, criteria, wanted) == NoField <==> LacksOneOf(record, wanted, a, b, c))
  {
    var criteria := [a, b, c] + others;
    CheckExact(record, criteria, wanted);
    NoFieldExact(record, criteria, wanted);
    assert criteria[0] == a && criteria[1] == b && criteria[2] == c;
    forall i | 3 <= i < |criteria| ensures criteria[i] !in wanted {
      assert criteria[i] == others[i - 3];
    }
    assert LacksOneOf(record, wanted, a, b, c) ==>
        || FirstLacked(record, criteria, wanted, 0) || FirstLacked(record, criteria, wanted, 1)
        || FirstLacked(record, criteria, wanted, 2);
  }

  predicate Selected(q: Query, k: Key) {
    if k in q.store then Check(q.store[k], q.criteria, q.wanted) == Match else q.keepMissing
  }

  /** Looking at the record of `k` is an exception. */
  predicate Raises(q: Query, k: Key) {
    k in q.store && Check(q.store[k], q.criteria, q.wanted) == NoField
  }

  function Matching(q: Query, pool: seq<Key>): seq<Key> {
    if pool == [] then []
    else
      var last := pool[|pool| - 1];
      Matching(q, pool[..|pool| - 1]) + if Selected(q, last) then [last] else []
  }

  /** What follows the first occurrence of a tag. */
  function After(pool: seq<Key>, tag: Key): seq<Key> {
    if pool == [] then [] else if pool[0] == tag then pool[1..] else After(pool[1..], tag)
  }

  /** What comes up to and including it. */
  function UpTo(pool: seq<Key>, tag: Key): seq<Key> {
    if pool == [] then [] else if pool[0] == tag then [tag] else [pool[0]] + UpTo(pool[1..], tag)
  }

  /** The ids a lookup or lookup-next looks at; without a tag, lookup-next looks at none. */
  function Asked(pool: seq<Key>, lookupNext: bool, tag: Option<Key>): seq<Key> {
    if !lookupNext then pool else if tag.Some? then After(pool, tag.value) else []
  }

  /** Reading the tag is an exception: the request has none, and there is an id to compare with it. */
  predicate TagMissed(pool: seq<Key>, lookupNext: bool, tag: Option<Key>) {
    lookupNext && tag.None? && pool != []
  }

  function LastOr(l: seq<Key>, default: Key): Key {
    if l == [] then default else l[|l| - 1]
  }

  function PageOf(ids: seq<Key>): Page {
    Page(|ids|, LastOr(ids, NO_TAG), ids)
  }

  // ----- the loops -----------------------------------------------------------------------------------

  method CheckCriteria(record: Record, criteria: seq<string>, wanted: Record) returns (verdict: Verdict)
    ensures verdict == Check(record, criteria, wanted)
  {
    var i := 0;
    while i < |criteria|
      invariant 0 <= i <= |criteria| && Check(record, criteria, wanted) == Check(record, criteria[i..], wanted)
    {
      var c := criteria[i];
      assert criteria[i..][1..] == criteria[i + 1..];
      if c in wanted {
        if c !in record {
          return NoField;
        }
        if record[c] != wanted[c] {
          return Mismatch;
        }
      }
      i := i + 1;
    }
    return Match;
  }

  method Look(q: Query, k: Key) returns (selected: bool, raised: bool)
    ensures (selected <==> Selected(q, k)) && (raised <==> Raises(q, k))
  {
    selected, raised := q.keepMissing, false;
    if k in q.store {
      var verdict := CheckCriteria(q.store[k], q.criteria, q.wanted);
      selected, raised := verdict == Match, verdict == NoField;
    }
  }

  /** Skipping or not, `rest` of the pool is still to be walked and `seen` has been looked at. */
  predicate Walking(goal: seq<Key>, seen: seq<Key>, skipping: bool, rest: seq<Key>, tag: Option<Key>) {
    if skipping then seen == [] && goal == Asked(rest, true, tag) else goal == seen + rest
  }

  lemma WalkFrom(pool: seq<Key>, lookupNext: bool, tag: Option<Key>)
    ensures Walking(Asked(pool, lookupNext, tag), [], lookupNext, pool[0..], tag)
  {
    assert pool[0..] == pool && [] + pool == pool;
  }

  lemma WalkOn(goal: seq<Key>, seen: seq<Key>, skipping: bool, rest: seq<Key>, tag: Option<Key>)
    requires Walking(goal, seen, skipping, rest, tag)
    ensures rest == [] ==> goal == seen
    ensures rest != [] ==>
              if skipping then tag.Some? ==> Walking(goal, [], rest[0] != tag.value, rest[1..], tag)
              else Walking(goal, seen + [rest[0]], false, rest[1..], tag)
  {
    if rest != [] && !skipping {
      assert seen + rest == seen + [rest[0]] + rest[1..];
    }
  }

  lemma NextSlice(pool: seq<Key>, i: nat)
    requires i < |pool|
    ensures pool[i..] != [] && pool[i..][0] == pool[i] && pool[i..][1..] == pool[i + 1..]
  {
  }

  /** The page gathered from what has been looked at. */
  predicate Gathered(q: Query, seen: seq<Key>, page: Page) {
    page == PageOf(Matching(q, seen))
  }

  lemma GatherNext(q: Query, seen: seq<Key>, page: Page, k: Key)
    requires Gathered(q, seen, page)
    ensures Gathered(q, seen + [k], if Selected(q, k) then Page(page.totalCount + 1, k, page.ids + [k]) else page)
  {
    assert (seen + [k])[..|seen|] == seen;
  }

  ghost predicate SomeRaises(q: Query, ids: seq<Key>) {
    exists i :: 0 <= i < |ids| && Raises(q, ids[i])
  }

  lemma RaisesNext(q: Query, seen: seq<Key>, k: Key, rest: seq<Key>)
    ensures SomeRaises(q, seen + [k]) <==> SomeRaises(q, seen) || Raises(q, k)
    ensures Raises(q, k) ==> SomeRaises(q, seen + [k] + rest)
  {
    var l, all := seen + [k], seen + [k] + rest;
    assert l[|seen|] == k && all[|seen|] == k;
    assert forall i :: 0 <= i < |seen| ==> l[i] == seen[i];
  }

  /** The walk has come to the `i`-th id, having looked at `seen` and found `page`. */
  ghost predicate Progress(q: Query, pool: seq<Key>, lookupNext: bool, tag: Option<Key>,
                           i: nat, skipping: bool, seen: seq<Key>, page: Page)
  {
    && i <= |pool| && Walking(Asked(pool, lookupNext, tag), seen, skipping, pool[i..], tag)
    && Gathered(q, seen, page) && !SomeRaises(q, seen)
    && (skipping ==> lookupNext && (i > 0 ==> tag.Some?)) && (!skipping && lookupNext ==> tag.Some?)
  }

  /** The page says how many ids it has and which is the last. */
  predicate Counted(page: Page) {
    && page.totalCount == |page.ids|
    && page.lookupTag == if page.ids == [] then Key("") else page.ids[|page.ids| - 1]
  }

  lemma ProgressFrom(q: Query, pool: seq<Key>, lookupNext: bool, tag: Option<Key>)
    ensures Progress(q, pool, lookupNext, tag, 0, lookupNext, [], Page(0, NO_TAG, []))
  {
    WalkFrom(pool, lookupNext, tag);
  }

  lemma ProgressSkips(q: Query, pool: seq<Key>, lookupNext: bool, tag: Option<Key>, i: nat, seen: seq<Key>, page: Page)
    requires Progress(q, pool, lookupNext, tag, i, true, seen, page) && i < |pool|
    ensures tag.None? ==> TagMissed(pool, lookupNext, tag)
    ensures tag.Some? ==> Progress(q, pool, lookupNext, tag, i + 1, pool[i] != tag.value, seen, page)
  {
    NextSlice(pool, i);
    WalkOn(Asked(pool, lookupNext, tag), seen, true, pool[i..], tag);
  }

  lemma ProgressLooks(q: Query, pool: seq<Key>, lookupNext: bool, tag: Option<Key>, i: nat, seen: seq<Key>, page: Page)
    requires Progress(q, pool, lookupNext, tag, i, false, seen, page) && i < |pool|
    ensures var k := pool[i];
            && (Raises(q, k) ==> SomeRaises(q, Asked(pool, lookupNext, tag)))
            && (!Raises(q, k) ==>
                  Progress(q, pool, lookupNext, tag, i + 1, false, seen + [k],
                           if Selected(q, k) then Page(page.totalCount + 1, k, page.ids + [k]) else page))
  {
    NextSlice(pool, i);
    WalkOn(Asked(pool, lookupNext, tag), seen, false, pool[i..], tag);
    GatherNext(q, seen, page, pool[i]);
    RaisesNext(q, seen, pool[i], pool[i + 1..]);
  }

  lemma ProgressEnds(q: Query, pool: seq<Key>, lookupNext: bool, tag: Option<Key>,
                     skipping: bool, seen: seq<Key>, page: Page)
    requires Progress(q, pool, lookupNext, tag, |pool|, skipping, seen, page)
    ensures !TagMissed(pool, lookupNext, tag) && !SomeRaises(q, Asked(pool, lookupNext, tag))
    ensures page == PageOf(Matching(q, Asked(pool, lookupNext, tag)))
    ensures Counted(page)
  {
    assert pool[|pool|..] == [];
    WalkOn(Asked(pool, lookupNext, tag), seen, skipping, [], tag);
  }

  /** The walk as far as the `i`-th id: whether it is still skipping and what it has found. */
  datatype Walk = At(skipping: bool, found: Page) | Failed

  function WalkTo(q: Query, pool: seq<Key>, lookupNext: bool, tag: Option<Key>, i: nat): Walk
    requires i <= |pool|
  {
    if i == 0 then At(lookupNext, Page(0, NO_TAG, []))
    else
      var before, k := WalkTo(q, pool, lookupNext, tag, i - 1), pool[i - 1];
      if before.Failed? then Failed
      else if before.skipping then (if tag.None? then Failed else At(k != tag.value, before.found))
      else if Raises(q, k) then Failed
      else At(false, if Selected(q, k) then Page(before.found.totalCount + 1, k, before.found.ids + [k]) else before.found)
  }

  lemma {:induction false} FailedForGood(q: Query, pool: seq<Key>, lookupNext: bool, tag: Option<Key>, i: nat, n: nat)
    requires i <= n <= |pool| && WalkTo(q, pool, lookupNext, tag, i).Failed?
    ensures WalkTo(q, pool, lookupNext, tag, n).Failed?
    decreases n
  {
    if i < n {
      FailedForGood(q, pool, lookupNext, tag, i, n - 1);
    }
  }

  /** A walk that has not failed has made progress, one that has had a reason. */
  lemma {:induction false} WalkMeans(q: Query, pool: seq<Key>, lookupNext: bool, tag: Option<Key>, i: nat)
    returns (seen: seq<Key>)
    requires i <= |pool|
    ensures var walk := WalkTo(q, pool, lookupNext, tag, i);
            if walk.Failed? then TagMissed(pool, lookupNext, tag) || SomeRaises(q, Asked(pool, lookupNext, tag))
            else Progress(q, pool, lookupNext, tag, i, walk.skipping, seen, walk.found)
    decreases i
  {
    if i == 0 {
      seen := [];
      ProgressFrom(q, pool, lookupNext, tag);
    } else {
      seen := WalkMeans(q, pool, lookupNext, tag, i - 1);
      var before := WalkTo(q, pool, lookupNext, tag, i - 1);
      if before.At? {
        if before.skipping {
          ProgressSkips(q, pool, lookupNext, tag, i - 1, seen, before.found);
        } else {
          ProgressLooks(q, pool, lookupNext, tag, i - 1, seen, before.found);
          seen := seen + [pool[i - 1]];
        }
      }
    }
  }

  lemma WalkedThrough(q: Query, pool: seq<Key>, lookupNext: bool, tag: Option<Key>)
    ensures var walk := WalkTo(q, pool, lookupNext, tag, |pool|);
            && (walk.Failed? <==> TagMissed(pool, lookupNext, tag) || SomeRaises(q, Asked(pool, lookupNext, tag)))
            && (walk.At? ==> walk.found == PageOf(Matching(q, Asked(pool, lookupNext, tag))) && Counted(walk.found))
  {
    var seen := WalkMeans(q, pool, lookupNext, tag, |pool|);
    var walk := WalkTo(q, pool, lookupNext, tag, |pool|);
    if walk.At? {
      ProgressEnds(q, pool, lookupNext, tag, walk.skipping, seen, walk.found);
    }
  }

  /** One lookup or lookup-next; `None` when the tag is missing or a record lacks a named field. */
  method LookupBasic(q: Query, pool: seq<Key>, lookupNext: bool, tag: Option<Key>) returns (page: Option<Page>)
    ensures page.None? <==> TagMissed(pool, lookupNext, tag) || SomeRaises(q, Asked(pool, lookupNext, tag))
    ensures page.Some? ==> page.value == PageOf(Matching(q, Asked(pool, lookupNext, tag)))
    ensures page.Some? ==> Counted(page.value)
  {
    WalkedThrough(q, pool, lookupNext, tag);
    var skipping := lookupNext;
    var found := Page(0, NO_TAG, []);
    var i := 0;
    while i < |pool|
      invariant 0 <= i <= |pool| && WalkTo(q, pool, lookupNext, tag, i) == At(skipping, found)
    {
      var k := pool[i];
      i := i + 1;
      if skipping {
        if tag.None? {
          FailedForGood(q, pool, lookupNext, tag, i, |pool|);
          return None;
        }
        skipping := k != tag.value;
        continue;
      }
      var selected, raised := Look(q, k);
      if raised {
        FailedForGood(q, pool, lookupNext, tag, i, |pool|);
        return None;
      }
      if selected {
        found := Page(found.totalCount + 1, k, found.ids + [k]);
      }
    }
    return Some(found);
  }

  // ----- what requests may hold ------------------------------------------------------------------------

  predicate HexDigits(s: string) {
    s != "" && forall i :: 0 <= i < |s| ==> '0' <= s[i] <= '9' || 'a' <= s[i] <= 'f' || 'A' <= s[i] <= 'F'
  }

  /** Digits, possibly behind a prefix. */
  predicate HexCore(t: string) {
    HexDigits(t) || (|t| > 2 && t[0] == '0' && t[1] in ['x', '|', 'X'] && HexDigits(t[2..]))
  }

  function WithoutEnd(s: string): string {
    if s != "" && s[|s| - 1] == '\n' then s[..|s| - 1] else s
  }

  /** The pattern of ids; its `$` also matches before a last line end. */
  predicate HexText(s: string) {
    HexCore(WithoutEnd(s))
  }

  lemma HexDigit(c: char)
    ensures c in "0123456789abcdefABCDEF" <==> '0' <= c <= '9' || 'a' <= c <= 'f' || 'A' <= c <= 'F'
  {
    var all := "0123456789abcdefABCDEF";
    if '0' <= c <= '9' {
      assert all[c as int - '0' as int] == c;
    } else if 'a' <= c <= 'f' {
      assert all[10 + c as int - 'a' as int] == c;
    } else if 'A' <= c <= 'F' {
      assert all[16 + c as int - 'A' as int] == c;
    }
  }

  predicate AllHex(digits: string) {
    digits != "" && forall i :: 0 <= i < |digits| ==> digits[i] in "0123456789abcdefABCDEF"
  }

  lemma HexDigitsExact(digits: string)
    ensures HexDigits(digits) <==> AllHex(digits)
  {
    forall i | 0 <= i < |digits|
      ensures digits[i] in "0123456789abcdefABCDEF" <==>
                '0' <= digits[i] <= '9' || 'a' <= digits[i] <= 'f' || 'A' <= digits[i] <= 'F'
    {
      HexDigit(digits[i]);
    }
  }

  ghost predicate HexParts(t: string, prefix: string, digits: string) {
    prefix in {"", "0x", "0X", "0|"} && AllHex(digits) && t == prefix + digits
  }

  lemma Behind(prefix: string, digits: string)
    requires |prefix| == 2
    ensures (prefix + digits)[2..] == digits
    ensures (prefix + digits)[0] == prefix[0] && (prefix + digits)[1] == prefix[1]
  {
  }

  lemma PartsAreCore(t: string, prefix: string, digits: string)
    requires HexParts(t, prefix, digits)
    ensures HexCore(t) && t != "" && t[|t| - 1] != '\n'
  {
    HexDigitsExact(digits);
    assert t[|t| - 1] == digits[|digits| - 1];
    if prefix == "" {
      assert t == digits;
    } else {
      Behind(prefix, digits);
    }
  }

  lemma CoreHasParts(t: string) returns (prefix: string, digits: string)
    requires HexCore(t)
    ensures HexParts(t, prefix, digits)
  {
    if HexDigits(t) {
      prefix, digits := "", t;
      assert "" + t == t;
    } else {
      prefix, digits := t[..2], t[2..];
      assert prefix == [t[0], t[1]] && t == prefix + digits;
      assert prefix == "0x" || prefix == "0X" || prefix == "0|";
    }
    HexDigitsExact(digits);
  }

  lemma EndStripped(s: string, t: string)
    requires t != "" && t[|t| - 1] != '\n'
    ensures WithoutEnd(s) == t <==> s == t || s == t + "\n"
  {
    if s == t + "\n" {
      assert s[..|s| - 1] == t;
    }
  }

  /** A text is admitted as an id if and only if it is hexadecimal digits, with an optional prefix
      before and an optional line end behind them. */
  lemma HexTextExact(s: string)
    ensures HexText(s) <==>
              exists t, prefix, digits :: HexParts(t, prefix, digits) && (s == t || s == t + "\n")
  {
    if HexText(s) {
      var prefix, digits := CoreHasParts(WithoutEnd(s));
      PartsAreCore(WithoutEnd(s), prefix, digits);
      EndStripped(s, WithoutEnd(s));
    }
    if t, prefix, digits :| HexParts(t, prefix, digits) && (s == t || s == t + "\n") {
      PartsAreCore(t, prefix, digits);
      EndStripped(s, t);
    }
  }

  predicate WorkerField(lookupNext: bool, name: string, value: string) {
    || (name == "workerType" && value in ["1", "2", "3"])
    || (name in ["organizationId", "applicationTypeId"] && HexText(value))
    || (lookupNext && name == "lookUpTag")
  }

  predicate ReceiptField(lookupNext: bool, name: string, value: string) {
    && HexText(value)
    && (|| name in ["workerServiceId", "workerId", "requesterId", "receiptStatus"]
        || (lookupNext && name == "lastLookUpTag"))
  }

  predicate WorkerAdmits(lookupNext: bool, params: Record) {
    params != map[] && forall name :: name in params ==> WorkerField(lookupNext, name, params[name])
  }

  predicate ReceiptAdmits(lookupNext: bool, params: Record) {
    params != map[] && forall name :: name in params ==> ReceiptField(lookupNext, name, params[name])
  }

  function TagIn(params: Record, name: string): Option<Key> {
    if name in params then Some(Key(params[name])) else None
  }

  // ----- workers ------------------------------------------------------------------------------------------

  function WorkerQuery(workers: map<Key, Record>, params: Record): Query {
    Query(workers, WORKER_CRITERIA, params, true)
  }

  lemma WorkerSelected(workers: map<Key, Record>, params: Record, k: Key)
    ensures Selected(WorkerQuery(workers, params), k) <==>
              (k in workers ==> MeetsAll(workers[k], params, "workerType", "organizationId", "applicationTypeId"))
    ensures Raises(WorkerQuery(workers, params), k) <==>
              k in workers && LacksOneOf(workers[k], params, "workerType", "organizationId", "applicationTypeId")
  {
    if k in workers {
      ThreeCriteria(workers[k], params, "workerType", "organizationId", "applicationTypeId", []);
      assert ["workerType", "organizationId", "applicationTypeId"] + [] == WORKER_CRITERIA;
    }
  }

  /** WorkerLookUp and WorkerLookUpNext.  The latter reads a tag that no request may hold. */
  method LookupWorkers(workers: map<Key, Record>, pool: seq<Key>, params: Record, lookupNext: bool)
    returns (reply: Reply)
    ensures reply.Refused? <==> !WorkerAdmits(lookupNext, params)
    ensures reply.Refused? <==>
              || params == map[]
              || (exists name :: name in params && !(|| (name == "workerType" && params[name] in {"1", "2", "3"})
                                                     || (name == "organizationId" && HexText(params[name]))
                                                     || (name == "applicationTypeId" && HexText(params[name]))
                                                     || (name == "lookUpTag" && lookupNext)))
    ensures !lookupNext && !reply.Refused? ==>
              var q := WorkerQuery(workers, params);
              && (reply.Exception? <==> SomeRaises(q, pool))
              && (reply.Found? ==> reply.page == PageOf(Matching(q, pool)))
    ensures !lookupNext && reply.Found? ==>
              && reply.page.totalCount == |reply.page.ids|
              && forall k :: k in reply.page.ids <==>
                   k in pool && (k in workers ==>
                                   MeetsAll(workers[k], params, "workerType", "organizationId", "applicationTypeId"))
    ensures !lookupNext && !reply.Refused? ==>
              (reply.Exception? <==>
                 exists k :: k in pool && k in workers
                             && LacksOneOf(workers[k], params, "workerType", "organizationId", "applicationTypeId"))
    ensures lookupNext && !reply.Refused? ==> reply == if pool == [] then Found(PageOf([])) else Exception
  {
    if !WorkerAdmits(lookupNext, params) {
      return Refused;
    }
    var page := LookupBasic(WorkerQuery(workers, params), pool, lookupNext, TagIn(params, "lookupTag"));
    assert "lookupTag" in params ==> WorkerField(lookupNext, "lookupTag", params["lookupTag"]);
    WorkersReported(workers, pool, params);
    return if page.None? then Exception else Found(page.value);
  }

  lemma WorkersReported(workers: map<Key, Record>, pool: seq<Key>, params: Record)
    ensures forall k :: k in Matching(WorkerQuery(workers, params), pool) <==>
                          k in pool && (k in workers ==>
                                          MeetsAll(workers[k], params, "workerType", "organizationId", "applicationTypeId"))
    ensures SomeRaises(WorkerQuery(workers, params), pool) <==>
              exists k :: k in pool && k in workers
                          && LacksOneOf(workers[k], params, "workerType", "organizationId", "applicationTypeId")
  {
    var q := WorkerQuery(workers, params);
    forall k ensures k in Matching(q, pool) <==>
                       k in pool && (k in workers ==>
                                       MeetsAll(workers[k], params, "workerType", "organizationId", "applicationTypeId"))
    {
      MatchingExact(q, pool, k);
      WorkerSelected(workers, params, k);
    }
    if i :| 0 <= i < |pool| && Raises(q, pool[i]) {
      WorkerSelected(workers, params, pool[i]);
    }
    if k :| k in pool && k in workers
            && LacksOneOf(workers[k], params, "workerType", "organizationId", "applicationTypeId")
    {
      WorkerSelected(workers, params, k);
      var i :| 0 <= i < |pool| && pool[i] == k;
      assert Raises(q, pool[i]);
    }
  }

  // ----- receipts -------------------------------------------------------------------------------------------

  function ReceiptQuery(receipts: map<Key, Record>, params: Record): Query {
    Query(receipts, RECEIPT_CRITERIA, params, false)
  }

  /** WorkOrderReceiptLookUp and WorkOrderReceiptLookUpNext. */
  ghost function ReceiptReply(receipts: map<Key, Record>, pool: seq<Key>, params: Record, lookupNext: bool): Reply {
    var q, tag := ReceiptQuery(receipts, params), TagIn(params, "lastLookUpTag");
    var ids := Asked(pool, lookupNext, tag);
    if !ReceiptAdmits(lookupNext, params) then Refused
    else if TagMissed(pool, lookupNext, tag) || SomeRaises(q, ids) then Exception
    else Found(PageOf(Matching(q, ids)))
  }

  method LookupReceipts(receipts: map<Key, Record>, pool: seq<Key>, params: Record, lookupNext: bool)
    returns (reply: Reply)
    ensures reply == ReceiptReply(receipts, pool, params, lookupNext)
    ensures reply == Refused <==>
              || params == map[]
              || (exists name :: name in params
                                 && (|| !HexText(params[name])
                                     || !(|| name in {"workerServiceId", "workerId", "requesterId", "receiptStatus"}
                                          || (name == "lastLookUpTag" && lookupNext))))
    ensures "requestCreateStatus" in params ==> reply == Refused
  {
    if !ReceiptAdmits(lookupNext, params) {
      return Refused;
    }
    var page := LookupBasic(ReceiptQuery(receipts, params), pool, lookupNext, TagIn(params, "lastLookUpTag"));
    assert "requestCreateStatus" in params ==>
        ReceiptField(lookupNext, "requestCreateStatus", params["requestCreateStatus"]);
    return if page.None? then Exception else Found(page.value);
  }

  /** Two requests say the same about a criterion. */
  predicate SameWanted(a: Record, b: Record, c: string) {
    (c in a <==> c in b) && (c in a && c in b ==> a[c] == b[c])
  }

  predicate SameCriteria(a: Record, b: Record, criteria: seq<string>) {
    forall i :: 0 <= i < |criteria| ==> SameWanted(a, b, criteria[i])
  }

  lemma {:induction false} CheckAgrees(record: Record, criteria: seq<string>, a: Record, b: Record)
    requires SameCriteria(a, b, criteria)
    ensures Check(record, criteria, a) == Check(record, criteria, b)
  {
    if criteria != [] {
      assert SameWanted(a, b, criteria[0]);
      CheckAgrees(record, criteria[1..], a, b);
    }
  }

  lemma KeysAgree(q: Query, params: Record, k: Key)
    requires SameCriteria(q.wanted, params, q.criteria)
    ensures var q' := q.(wanted := params);
            (Selected(q, k) <==> Selected(q', k)) && (Raises(q, k) <==> Raises(q', k))
  {
    if k in q.store {
      CheckAgrees(q.store[k], q.criteria, q.wanted, params);
    }
  }

  lemma {:induction false} MatchingAgrees(q: Query, params: Record, pool: seq<Key>)
    requires SameCriteria(q.wanted, params, q.criteria)
    ensures Matching(q, pool) == Matching(q.(wanted := params), pool)
    ensures SomeRaises(q, pool) <==> SomeRaises(q.(wanted := params), pool)
  {
    forall k ensures Raises(q, k) <==> Raises(q.(wanted := params), k) {
      KeysAgree(q, params, k);
    }
    if pool != [] {
      MatchingAgrees(q, params, pool[..|pool| - 1]);
      KeysAgree(q, params, pool[|pool| - 1]);
    }
  }

  /** A request that is admitted never names the last criterion. */
  lemma LastCriterionUnused(params: Record, lookupNext: bool)
    requires ReceiptAdmits(lookupNext, params)
    ensures RECEIPT_CRITERIA[3] !in params
  {
    var c := RECEIPT_CRITERIA[3];
    assert c in params ==> ReceiptField(lookupNext, c, params[c]);
  }

  lemma SameOffStatus(a: Record, b: Record, c: string)
    requires a - {"receiptStatus"} == b - {"receiptStatus"} && c != "receiptStatus"
    ensures SameWanted(a, b, c)
  {
    assert SameWanted(a - {"receiptStatus"}, b - {"receiptStatus"}, c);
  }

  lemma SameCriteriaOffStatus(a: Record, b: Record)
    requires a - {"receiptStatus"} == b - {"receiptStatus"}
    ensures SameCriteria(a, b, RECEIPT_CRITERIA)
  {
    forall i | 0 <= i < |RECEIPT_CRITERIA| ensures SameWanted(a, b, RECEIPT_CRITERIA[i]) {
      SameOffStatus(a, b, RECEIPT_CRITERIA[i]);
    }
  }

  /** The status an admitted request asks for is ignored: requests that differ only in it get the
      same reply. */
  lemma StatusIgnored(receipts: map<Key, Record>, pool: seq<Key>, a: Record, b: Record, lookupNext: bool)
    requires ReceiptAdmits(lookupNext, a) && ReceiptAdmits(lookupNext, b)
    requires a - {"receiptStatus"} == b - {"receiptStatus"}
    ensures ReceiptReply(receipts, pool, a, lookupNext) == ReceiptReply(receipts, pool, b, lookupNext)
  {
    SameCriteriaOffStatus(a, b);
    SameOffStatus(a, b, "lastLookUpTag");
    assert TagIn(a, "lastLookUpTag") == TagIn(b, "lastLookUpTag");
    MatchingAgrees(ReceiptQuery(receipts, a), b, Asked(pool, lookupNext, TagIn(a, "lastLookUpTag")));
  }

  /** So a receipt is selected by its worker service, worker and requester alone. */
  lemma SelectedByThree(receipts: map<Key, Record>, params: Record, lookupNext: bool, k: Key)
    requires ReceiptAdmits(lookupNext, params)
    ensures Selected(ReceiptQuery(receipts, params), k) <==>
              k in receipts && MeetsAll(receipts[k], params, "workerServiceId", "workerId", "requesterId")
    ensures Raises(ReceiptQuery(receipts, params), k) <==>
              k in receipts && LacksOneOf(receipts[k], params, "workerServiceId", "workerId", "requesterId")
  {
    LastCriterionUnused(params, lookupNext);
    if k in receipts {
      ThreeCriteria(receipts[k], params, "workerServiceId", "workerId", "requesterId", ["requestCreateStatus"]);
      assert ["workerServiceId", "workerId", "requesterId"] + ["requestCreateStatus"] == RECEIPT_CRITERIA;
    }
  }

  // ----- paging ----------------------------------------------------------------------------------------

  lemma {:induction false} MatchingConcat(q: Query, a: seq<Key>, b: seq<Key>)
    ensures Matching(q, a + b) == Matching(q, a) + Matching(q, b)
    decreases |b|
  {
    if b == [] {
      assert a + b == a;
    } else {
      var last := |b| - 1;
      assert (a + b)[..|a + b| - 1] == a + b[..last];
      MatchingConcat(q, a, b[..last]);
    }
  }

  lemma {:induction false} TagSplits(pool: seq<Key>, tag: Key)
    ensures tag in pool ==> UpTo(pool, tag) + After(pool, tag) == pool
    ensures tag in pool ==> UpTo(pool, tag) != [] && LastOr(UpTo(pool, tag), NO_TAG) == tag
    ensures tag !in pool ==> UpTo(pool, tag) == pool && After(pool, tag) == []
  {
    if pool != [] && pool[0] != tag {
      TagSplits(pool[1..], tag);
      assert pool == [pool[0]] + pool[1..];
    }
  }

  /** A lookup returns the matches up to and including a tag of the pool, then what lookup-next
      returns for that tag; for an unknown tag lookup-next returns nothing. */
  lemma LookupIsPaged(q: Query, pool: seq<Key>, tag: Key)
    ensures tag in pool ==> Matching(q, pool) == Matching(q, UpTo(pool, tag)) + Matching(q, After(pool, tag))
    ensures tag !in pool ==> PageOf(Matching(q, After(pool, tag))) == Page(0, NO_TAG, [])
  {
    TagSplits(pool, tag);
    MatchingConcat(q, UpTo(pool, tag), After(pool, tag));
  }

  predicate DistinctKeys(pool: seq<Key>) {
    forall i, j :: 0 <= i < j < |pool| ==> pool[i] != pool[j]
  }

  lemma {:induction false} AfterAt(pool: seq<Key>, i: nat)
    requires DistinctKeys(pool) && i < |pool|
    ensures After(pool, pool[i]) == pool[i + 1..]
  {
    if i > 0 {
      AfterAt(pool[1..], i - 1);
      assert pool[1..][i - 1] == pool[i] && pool[1..][i..] == pool[i + 1..];
    }
  }

  /** Where the last match of a pool is. */
  lemma {:induction false} LastMatch(q: Query, pool: seq<Key>) returns (i: nat)
    requires Matching(q, pool) != []
    ensures i < |pool| && pool[i] == LastOr(Matching(q, pool), NO_TAG)
    ensures Matching(q, pool[i + 1..]) == []
  {
    var n := |pool| - 1;
    if Selected(q, pool[n]) {
      i := n;
    } else {
      i := LastMatch(q, pool[..n]);
      var rest, last := pool[..n][i + 1..], [pool[n]];
      assert pool[i + 1..] == rest + last;
      MatchingConcat(q, rest, last);
      assert last[..0] == [] && Matching(q, last) == [];
    }
  }

  // ----- ids added later ------------------------------------------------------------------------------

  /** The order of keys in a table. */
  predicate Below(a: string, b: string) {
    b != "" && (a == "" || a[0] < b[0] || (a[0] == b[0] && Below(a[1..], b[1..])))
  }

  lemma {:induction false} BelowOneWay(a: string, b: string)
    ensures !(Below(a, b) && Below(b, a))
  {
    if a != "" && b != "" && a[0] == b[0] {
      BelowOneWay(a[1..], b[1..]);
    }
  }

  predicate InKeyOrder(pool: seq<Key>) {
    forall i, j :: 0 <= i < j < |pool| ==> Below(pool[i].text, pool[j].text)
  }

  lemma OrderedDistinct(pool: seq<Key>)
    requires InKeyOrder(pool)
    ensures DistinctKeys(pool)
  {
    forall i, j | 0 <= i < j < |pool| ensures pool[i] != pool[j] {
      BelowOneWay(pool[i].text, pool[j].text);
    }
  }

  /** Which side of the `i`-th key another one is on. */
  lemma WhichSide(pool: seq<Key>, i: nat, k: Key)
    requires InKeyOrder(pool) && i < |pool|
    ensures k in pool[i + 1..] <==> k in pool && Below(pool[i].text, k.text)
  {
    BelowOneWay(pool[i].text, k.text);
    if k in pool && Below(pool[i].text, k.text) {
      var m :| 0 <= m < |pool| && pool[m] == k;
      BelowOneWay(pool[i].text, pool[i].text);
      assert m > i && pool[i + 1..][m - i - 1] == k;
    }
  }

  /** A match that was not there before. */
  predicate NewMatch(q: Query, pool: seq<Key>, later: seq<Key>, k: Key) {
    k in later && k !in pool && Selected(q, k)
  }

  /** After a lookup on `pool`, lookup-next with the returned tag on the `later` pool reports exactly
      the new matches that sort behind the tag, and none if the lookup found nothing. */
  lemma NextFindsLaterKeys(q: Query, pool: seq<Key>, later: seq<Key>, k: Key)
    requires InKeyOrder(pool) && InKeyOrder(later) && NO_TAG !in later
    requires forall i :: 0 <= i < |pool| ==> pool[i] in later
    ensures var tag := PageOf(Matching(q, pool)).lookupTag;
            k in Matching(q, After(later, tag)) <==>
              Matching(q, pool) != [] && NewMatch(q, pool, later, k) && Below(tag.text, k.text)
  {
    if Matching(q, pool) == [] {
      TagSplits(later, NO_TAG);
    } else {
      var i := LastMatch(q, pool);
      var tag := pool[i];
      var j :| 0 <= j < |later| && later[j] == tag;
      OrderedDistinct(later);
      AfterAt(later, j);
      MatchingExact(q, later[j + 1..], k);
      WhichSide(later, j, k);
      WhichSide(pool, i, k);
      MatchingExact(q, pool[i + 1..], k);
    }
  }

  /** So it reports all new matches if and only if there are none, or the lookup found something and
      none of them sorts before the tag. */
  lemma NextFindsAllNew(q: Query, pool: seq<Key>, later: seq<Key>)
    requires InKeyOrder(pool) && InKeyOrder(later) && NO_TAG !in later
    requires forall i :: 0 <= i < |pool| ==> pool[i] in later
    ensures var tag := PageOf(Matching(q, pool)).lookupTag;
            (forall k :: NewMatch(q, pool, later, k) ==> k in Matching(q, After(later, tag))) <==>
              forall k :: NewMatch(q, pool, later, k) ==> Matching(q, pool) != [] && Below(tag.text, k.text)
  {
    var tag := PageOf(Matching(q, pool)).lookupTag;
    forall k ensures k in Matching(q, After(later, tag)) <==>
                       Matching(q, pool) != [] && NewMatch(q, pool, later, k) && Below(tag.text, k.text)
    {
      NextFindsLaterKeys(q, pool, later, k);
    }
  }

  predicate HexKeys(pool: seq<Key>) {
    forall i :: 0 <= i < |pool| ==> HexText(pool[i].text)
  }

  /** The request that continues an earlier one from a returned tag. */
  function Continued(params: Record, tag: Key): Record {
    params["lastLookUpTag" := tag.text]
  }

  lemma ContinuedCriteria(params: Record, tag: Key)
    ensures SameCriteria(params, Continued(params, tag), RECEIPT_CRITERIA)
  {
    forall i | 0 <= i < |RECEIPT_CRITERIA| ensures SameWanted(params, Continued(params, tag), RECEIPT_CRITERIA[i]) {
      assert RECEIPT_CRITERIA[i] != "lastLookUpTag";
    }
  }

  lemma ContinuedAdmits(params: Record, tag: Key)
    requires ReceiptAdmits(false, params)
    ensures ReceiptAdmits(true, Continued(params, tag)) <==> HexText(tag.text)
  {
    var next, name := Continued(params, tag), "lastLookUpTag";
    assert ReceiptField(true, name, next[name]) <==> HexText(tag.text);
    forall n | n in next && n != name ensures ReceiptField(true, n, next[n]) {
      assert ReceiptField(false, n, params[n]);
    }
  }

  /** A client looks receipts up and later asks for what follows the returned tag.  After a lookup
      that found nothing the schema refuses the empty tag.  After one that found something the
      request is admitted, and if no record behind the tag lacks a named field, the page holds
      exactly the new matches that sort behind the tag. */
  lemma ReceiptsContinued(receipts: map<Key, Record>, pool: seq<Key>, later: seq<Key>, params: Record, k: Key)
    requires InKeyOrder(pool) && InKeyOrder(later) && HexKeys(later)
    requires forall i :: 0 <= i < |pool| ==> pool[i] in later
    requires ReceiptReply(receipts, pool, params, false).Found?
    ensures var q, page := ReceiptQuery(receipts, params), ReceiptReply(receipts, pool, params, false).page;
            var reply := ReceiptReply(receipts, later, Continued(params, page.lookupTag), true);
            && (reply == Refused <==> page.ids == [])
            && (reply == Exception <==> page.ids != [] && SomeRaises(q, After(later, page.lookupTag)))
            && (reply.Found? ==>
                  (k in reply.page.ids <==> NewMatch(q, pool, later, k) && Below(page.lookupTag.text, k.text)))
  {
    var q := ReceiptQuery(receipts, params);
    var tag := PageOf(Matching(q, pool)).lookupTag;
    ContinuedCriteria(params, tag);
    ContinuedAdmits(params, tag);
    MatchingAgrees(q, Continued(params, tag), After(later, tag));
    if Matching(q, pool) != [] {
      var i := LastMatch(q, pool);
      assert pool[i] in later;
    }
    NextFindsLaterKeys(q, pool, later, k);
  }

  /** In particular lookup-next with a returned tag finds nothing while the pool is unchanged. */
  lemma NextAfterLastIsEmpty(q: Query, pool: seq<Key>)
    requires DistinctKeys(pool) && Matching(q, pool) != []
    ensures Matching(q, After(pool, PageOf(Matching(q, pool)).lookupTag)) == []
  {
    var i := LastMatch(q, pool);
    AfterAt(pool, i);
  }

  /** Ids are reported in pool order, each exactly when it is selected. */
  lemma {:induction false} MatchingExact(q: Query, pool: seq<Key>, k: Key)
    ensures k in Matching(q, pool) <==> k in pool && Selected(q, k)
    ensures DistinctKeys(pool) ==> DistinctKeys(Matching(q, pool))
  {
    if pool != [] {
      var n := |pool| - 1;
      assert pool == pool[..n] + [pool[n]];
      MatchingExact(q, pool[..n], k);
      MatchingExact(q, pool[..n], pool[n]);
      assert DistinctKeys(pool) ==> pool[n] !in pool[..n];
    }
  }
}
