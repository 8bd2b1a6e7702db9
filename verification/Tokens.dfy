/** Issuing and burning tokens for organisations and reputation for their employees.

The input is taken after text parsing: an organisation with its activity
fields, each of which either converted to a triple or did not.
*/
module Tokens {

  datatype Triple = Triple(employee: string, kind: int, realized: bool)

  /** A field triple of the text, if its numbers convert. */
  datatype Field = Parsed(triple: Triple) | Unparsed

  /** `Malformed` has a number of fields that is not a name followed by triples. */
  datatype Org = Org(name: string, fields: seq<Field>) | Malformed

  datatype Amount = Amount(name: string, number: int)

  function Worth(kind: int, realized: bool): int {
    var token :=
      match kind
      case 1 => 10
      case 2 => 5
      case 3 => 100
      case 4 => 200
      case 5 => 1000
      case 6 => 2000
      case 7 => 10000
      case _ => 0;
    if realized then token else -token
  }

  function WorthOf(t: Triple): int {
    Worth(t.kind, t.realized)
  }

  /** Activity types index an array of eight. */
  predicate KindsOk(org: Org) {
    org.Org? ==>
      forall i :: 0 <= i < |org.fields| && org.fields[i].Parsed? ==> 0 <= org.fields[i].triple.kind < 8
  }

  // ----- reference definitions --------------------------------------------------------------------

  /** Triples before the first field that does not convert. */
  function Used(fields: seq<Field>): seq<Triple> {
    if fields == [] || fields[0].Unparsed? then [] else [fields[0].triple] + Used(fields[1..])
  }

  predicate AllParsed(fields: seq<Field>) {
    forall i :: 0 <= i < |fields| ==> fields[i].Parsed?
  }

  predicate Good(org: Org) {
    org.Org? && AllParsed(org.fields)
  }

  /** All triples processed before the end or the first error. */
  function Processed(orgs: seq<Org>): seq<Triple> {
    if orgs == [] || orgs[0].Malformed? then []
    else Used(orgs[0].fields) + if Good(orgs[0]) then Processed(orgs[1..]) else []
  }

  /** Worth of the first activity of a type. */
  function FirstWorth(ts: seq<Triple>, kind: int): int {
    if ts == [] then 0 else if ts[0].kind == kind then WorthOf(ts[0]) else FirstWorth(ts[1..], kind)
  }

  /** First activities summed over the types below `n`. */
  function SumOfFirsts(ts: seq<Triple>, n: nat): int {
    if n == 0 then 0 else SumOfFirsts(ts, n - 1) + FirstWorth(ts, n - 1)
  }

  /** An employee's activities, summed. */
  function Earned(ts: seq<Triple>, name: string): int {
    if ts == [] then 0
    else
      var last := ts[|ts| - 1];
      Earned(ts[..|ts| - 1], name) + if last.employee == name then WorthOf(last) else 0
  }

  function Total(ts: seq<Triple>): int {
    if ts == [] then 0 else Total(ts[..|ts| - 1]) + WorthOf(ts[|ts| - 1])
  }

  function Sum(reps: seq<Amount>): int {
    if reps == [] then 0 else Sum(reps[..|reps| - 1]) + reps[|reps| - 1].number
  }

  predicate DistinctNames(reps: seq<Amount>) {
    forall i, j :: 0 <= i < j < |reps| ==> reps[i].name != reps[j].name
  }

  function Names(reps: seq<Amount>): set<string> {
    set i | 0 <= i < |reps| :: reps[i].name
  }

  function Employees(ts: seq<Triple>): set<string> {
    set i | 0 <= i < |ts| :: ts[i].employee
  }

  /** Employees in the order of their first activities. */
  function ByFirst(ts: seq<Triple>): seq<string> {
    if ts == [] then []
    else
      var init, name := ByFirst(ts[..|ts| - 1]), ts[|ts| - 1].employee;
      if name in init then init else init + [name]
  }

  function NameList(reps: seq<Amount>): seq<string> {
    seq(|reps|, i requires 0 <= i < |reps| => reps[i].name)
  }

  /** One entry per employee, holding what the employee earned, in the order of first activities;
      nothing is lost or made up. */
  predicate Balanced(reps: seq<Amount>, ts: seq<Triple>) {
    && DistinctNames(reps) && NameList(reps) == ByFirst(ts)
    && (forall k :: 0 <= k < |reps| ==> reps[k].number == Earned(ts, reps[k].name))
    && Names(reps) == Employees(ts)
    && Sum(reps) == Total(ts)
  }

  /** Exactly the triples before the first field that does not convert are used. */
  lemma {:induction false} UsedExact(fields: seq<Field>, j: nat)
    requires j <= |fields| && (j < |fields| ==> fields[j].Unparsed?)
    requires forall i :: 0 <= i < j ==> fields[i].Parsed?
    ensures |Used(fields)| == j && forall i :: 0 <= i < j ==> Used(fields)[i] == fields[i].triple
  {
    if j > 0 {
      UsedExact(fields[1..], j - 1);
      assert forall i :: 0 < i < j ==> Used(fields)[i] == Used(fields[1..])[i - 1];
    }
  }

  /** The triples of organisations one after the other. */
  function AllUsed(orgs: seq<Org>): seq<Triple> {
    if orgs == [] then [] else (if orgs[0].Org? then Used(orgs[0].fields) else []) + AllUsed(orgs[1..])
  }

  /** Everything before the first bad organisation is processed, and of that one the triples before
      its first field that does not convert. */
  lemma {:induction false} ProcessedExact(orgs: seq<Org>, n: nat)
    requires n <= |orgs| && (n < |orgs| ==> !Good(orgs[n])) && forall i :: 0 <= i < n ==> Good(orgs[i])
    ensures Processed(orgs) ==
            AllUsed(orgs[..n]) + if n < |orgs| && orgs[n].Org? then Used(orgs[n].fields) else []
  {
    if n > 0 {
      ProcessedExact(orgs[1..], n - 1);
      AllUsedStep(orgs, n, if n < |orgs| && orgs[n].Org? then Used(orgs[n].fields) else []);
    } else {
      assert orgs[..0] == [];
    }
  }

  lemma AllUsedStep(orgs: seq<Org>, n: nat, rest: seq<Triple>)
    requires 0 < n <= |orgs| && orgs[0].Org?
    ensures AllUsed(orgs[..n]) + rest == Used(orgs[0].fields) + (AllUsed(orgs[1..][..n - 1]) + rest)
  {
    assert orgs[..n][1..] == orgs[1..][..n - 1];
  }

  // ----- accounting lemmas ----------------------------------------------------------------------------

  predicate Seen(ts: seq<Triple>, kind: int) {
    exists i :: 0 <= i < |ts| && ts[i].kind == kind
  }

  lemma {:induction false} FirstWorthSnoc(ts: seq<Triple>, t: Triple, kind: int)
    ensures FirstWorth(ts + [t], kind) ==
            if Seen(ts, kind) then FirstWorth(ts, kind) else if t.kind == kind then WorthOf(t) else 0
  {
    if ts == [] {
      assert ts + [t] == [t];
    } else {
      assert (ts + [t])[1..] == ts[1..] + [t];
      FirstWorthSnoc(ts[1..], t, kind);
      if ts[0].kind != kind && Seen(ts, kind) {
        var i :| 0 <= i < |ts| && ts[i].kind == kind;
        assert ts[1..][i - 1].kind == kind;
      }
      if Seen(ts[1..], kind) {
        var i :| 0 <= i < |ts[1..]| && ts[1..][i].kind == kind;
        assert ts[i + 1].kind == kind;
      }
    }
  }

  /** A further activity counts for the organisation exactly when its type is new. */
  lemma {:induction false} SumOfFirstsSnoc(ts: seq<Triple>, t: Triple, n: nat)
    ensures SumOfFirsts(ts + [t], n) ==
            SumOfFirsts(ts, n) + if 0 <= t.kind < n && !Seen(ts, t.kind) then WorthOf(t) else 0
  {
    if n > 0 {
      SumOfFirstsSnoc(ts, t, n - 1);
      FirstWorthSnoc(ts, t, n - 1);
      if !Seen(ts, n - 1) {
        NeverSeen(ts, n - 1);
      }
    }
  }

  lemma {:induction false} NeverSeen(ts: seq<Triple>, kind: int)
    requires !Seen(ts, kind)
    ensures FirstWorth(ts, kind) == 0
  {
    if ts != [] {
      assert ts[0].kind != kind;
      assert forall i :: 0 <= i < |ts[1..]| ==> ts[1..][i] == ts[i + 1];
      NeverSeen(ts[1..], kind);
    }
  }

  lemma {:induction false} FirstWorthBound(ts: seq<Triple>, kind: int)
    ensures -Worth(kind, true) <= FirstWorth(ts, kind) <= Worth(kind, true)
  {
    if ts != [] {
      FirstWorthBound(ts[1..], kind);
    }
  }

  /** The most an organisation can get for the types below `n`. */
  function Cap(n: nat): int {
    if n == 0 then 0 else Cap(n - 1) + Worth(n - 1, true)
  }

  lemma {:induction false} SumWithinCap(ts: seq<Triple>, n: nat)
    ensures -Cap(n) <= SumOfFirsts(ts, n) <= Cap(n)
  {
    if n > 0 {
      SumWithinCap(ts, n - 1);
      FirstWorthBound(ts, n - 1);
    }
  }

  /** However long the input, an organisation's number lies between -13315 and 13315. */
  lemma OrgNumberBound(ts: seq<Triple>)
    ensures -13315 <= SumOfFirsts(ts, 8) <= 13315
  {
    SumWithinCap(ts, 8);
    assert Cap(4) == 115 && Cap(6) == 1315;
  }

  /** Both bounds are reached. */
  lemma OrgNumberBoundTight()
    ensures exists ts :: SumOfFirsts(ts, 8) == 13315
    ensures exists ts :: SumOfFirsts(ts, 8) == -13315
  {
    AllKinds(true, 8);
    AllKinds(false, 8);
    assert Cap(4) == 115 && Cap(6) == 1315;
  }

  /** One activity of each type below `n`. */
  function OneOfEach(realized: bool, n: nat): seq<Triple> {
    if n == 0 then [] else OneOfEach(realized, n - 1) + [Triple("", n - 1, realized)]
  }

  lemma {:induction false} AllKinds(realized: bool, n: nat)
    ensures SumOfFirsts(OneOfEach(realized, n), n) == if realized then Cap(n) else -Cap(n)
    ensures forall i :: 0 <= i < |OneOfEach(realized, n)| ==> OneOfEach(realized, n)[i].kind < n
  {
    if n > 0 {
      var ts, t := OneOfEach(realized, n - 1), Triple("", n - 1, realized);
      AllKinds(realized, n - 1);
      SumOfFirstsSnoc(ts, t, n - 1);
      FirstWorthSnoc(ts, t, n - 1);
    }
  }

  /** What one activity of each type gives its organisation and its employee. */
  lemma OneActivity(employee: string, kind: int, realized: bool)
    requires 1 <= kind <= 7
    ensures var ts, token := [Triple(employee, kind, realized)], [10, 5, 100, 200, 1000, 2000, 10000][kind - 1];
            && SumOfFirsts(ts, 8) == (if realized then token else -token)
            && Earned(ts, employee) == if realized then token else -token
  {
    var t := Triple(employee, kind, realized);
    assert [] + [t] == [t] && [t][..0] == [];
    SumOfFirstsSnoc([], t, 8);
    SumOfNothing(8);
  }

  lemma {:induction false} EarnedNothing(ts: seq<Triple>, name: string)
    requires name !in Employees(ts)
    ensures Earned(ts, name) == 0
  {
    if ts != [] {
      var init := ts[..|ts| - 1];
      assert ts[|ts| - 1].employee in Employees(ts);
      assert forall i :: 0 <= i < |init| ==> init[i] == ts[i];
      assert Employees(init) <= Employees(ts);
      EarnedNothing(init, name);
    }
  }

  lemma {:induction false} SumUpdate(reps: seq<Amount>, k: nat, a: Amount)
    requires k < |reps|
    ensures Sum(reps[k := a]) == Sum(reps) - reps[k].number + a.number
  {
    var last := |reps| - 1;
    if k < last {
      assert reps[k := a][..last] == reps[..last][k := a];
      SumUpdate(reps[..last], k, a);
    } else {
      assert reps[k := a][..last] == reps[..last];
    }
  }

  lemma ByFirstSnoc(ts: seq<Triple>, t: Triple)
    ensures ByFirst(ts + [t]) == if t.employee in ByFirst(ts) then ByFirst(ts) else ByFirst(ts) + [t.employee]
  {
    assert (ts + [t])[..|ts|] == ts;
  }

  lemma NameKept(reps: seq<Amount>, ts: seq<Triple>, t: Triple, k: nat, a: Amount)
    requires k < |reps| && reps[k].name == t.employee == a.name && NameList(reps) == ByFirst(ts)
    ensures NameList(reps[k := a]) == ByFirst(ts + [t])
  {
    assert NameList(reps)[k] == t.employee;
    assert NameList(reps[k := a]) == NameList(reps);
    ByFirstSnoc(ts, t);
  }

  lemma NameAdded(reps: seq<Amount>, ts: seq<Triple>, t: Triple, a: Amount)
    requires a.name == t.employee && NameList(reps) == ByFirst(ts)
    requires forall k :: 0 <= k < |reps| ==> reps[k].name != t.employee
    ensures NameList(reps + [a]) == ByFirst(ts + [t])
  {
    assert NameList(reps + [a]) == NameList(reps) + [a.name];
    ByFirstSnoc(ts, t);
  }

  /** Crediting an employee who has an entry. */
  lemma CreditKnown(reps: seq<Amount>, ts: seq<Triple>, t: Triple, k: nat)
    requires Balanced(reps, ts) && k < |reps| && reps[k].name == t.employee
    ensures Balanced(reps[k := Amount(t.employee, reps[k].number + WorthOf(t))], ts + [t])
  {
    var reps', all := reps[k := Amount(t.employee, reps[k].number + WorthOf(t))], ts + [t];
    assert all[..|ts|] == ts;
    SumUpdate(reps, k, reps'[k]);
    NameKept(reps, ts, t, k, reps'[k]);
    assert forall j :: 0 <= j < |reps| ==> reps'[j].name == reps[j].name;
    SameNames(reps, reps');
    assert t.employee in Names(reps);
    EmployeesSnoc(ts, t);
    assert Names(reps') == Employees(all);
    forall j | 0 <= j < |reps'| ensures reps'[j].number == Earned(all, reps'[j].name) {
      assert reps[j].number == Earned(ts, reps[j].name);
    }
  }

  lemma SameNames(reps: seq<Amount>, reps': seq<Amount>)
    requires |reps'| == |reps| && forall j :: 0 <= j < |reps| ==> reps'[j].name == reps[j].name
    ensures Names(reps') == Names(reps)
  {
    forall n ensures n in Names(reps') <==> n in Names(reps) {
      if n in Names(reps) {
        var j :| 0 <= j < |reps| && reps[j].name == n;
        assert reps'[j].name == n;
      }
    }
  }

  lemma EmployeesSnoc(ts: seq<Triple>, t: Triple)
    ensures Employees(ts + [t]) == Employees(ts) + {t.employee}
  {
    var all := ts + [t];
    forall n ensures n in Employees(all) <==> n in Employees(ts) + {t.employee} {
      if n in Employees(ts) {
        var i :| 0 <= i < |ts| && ts[i].employee == n;
        assert all[i].employee == n;
      }
      assert all[|ts|].employee == t.employee;
    }
  }

  lemma NamesSnoc(reps: seq<Amount>, a: Amount)
    ensures Names(reps + [a]) == Names(reps) + {a.name}
  {
    var all := reps + [a];
    forall n ensures n in Names(all) <==> n in Names(reps) + {a.name} {
      if n in Names(reps) {
        var i :| 0 <= i < |reps| && reps[i].name == n;
        assert all[i].name == n;
      }
      assert all[|reps|].name == a.name;
    }
  }

  lemma TotalsSnoc(ts: seq<Triple>, t: Triple, name: string)
    ensures Total(ts + [t]) == Total(ts) + WorthOf(t)
    ensures Earned(ts + [t], name) == Earned(ts, name) + if t.employee == name then WorthOf(t) else 0
  {
    assert (ts + [t])[..|ts|] == ts;
  }

  lemma SumSnoc(reps: seq<Amount>, a: Amount)
    ensures Sum(reps + [a]) == Sum(reps) + a.number
  {
    assert (reps + [a])[..|reps|] == reps;
  }

  lemma NewNumbers(reps: seq<Amount>, ts: seq<Triple>, t: Triple, j: nat)
    requires j <= |reps| && Earned(ts, t.employee) == 0
    requires forall k :: 0 <= k < |reps| ==> reps[k].name != t.employee && reps[k].number == Earned(ts, reps[k].name)
    ensures var r := (reps + [Amount(t.employee, WorthOf(t))])[j];
            r.number == Earned(ts + [t], r.name)
  {
    TotalsSnoc(ts, t, if j < |reps| then reps[j].name else t.employee);
  }

  /** Crediting an employee for the first time. */
  lemma CreditNew(reps: seq<Amount>, ts: seq<Triple>, t: Triple)
    requires Balanced(reps, ts) && forall k :: 0 <= k < |reps| ==> reps[k].name != t.employee
    ensures Balanced(reps + [Amount(t.employee, WorthOf(t))], ts + [t])
  {
    var a := Amount(t.employee, WorthOf(t));
    var reps' := reps + [a];
    EmployeesSnoc(ts, t);
    NamesSnoc(reps, a);
    assert t.employee !in Names(reps);
    EarnedNothing(ts, t.employee);
    NameAdded(reps, ts, t, a);
    SumSnoc(reps, a);
    TotalsSnoc(ts, t, t.employee);
    forall j | 0 <= j < |reps'| ensures reps'[j].number == Earned(ts + [t], reps'[j].name) {
      NewNumbers(reps, ts, t, j);
    }
  }

  // ----- the program -----------------------------------------------------------------------------------

  /** Add to the entry of an employee, or start one. */
  method Credit(reps: seq<Amount>, t: Triple, ghost ts: seq<Triple>) returns (reps': seq<Amount>)
    requires Balanced(reps, ts)
    ensures Balanced(reps', ts + [t])
  {
    var number := Worth(t.kind, t.realized);
    var k := 0;
    while k < |reps|
      invariant 0 <= k <= |reps| && forall j :: 0 <= j < k ==> reps[j].name != t.employee
    {
      if t.employee == reps[k].name {
        CreditKnown(reps, ts, t, k);
        return reps[k := Amount(t.employee, reps[k].number + number)];
      }
      k := k + 1;
    }
    CreditNew(reps, ts, t);
    return reps + [Amount(t.employee, number)];
  }

  /** The array marks exactly the types that occurred. */
  ghost predicate Marks(seen: array<int>, ts: seq<Triple>)
    reads seen
  {
    seen.Length == 8 && forall kind :: 0 <= kind < 8 ==> (seen[kind] == 1 <==> Seen(ts, kind))
  }

  /** Count an activity for the organisation unless its type is marked. */
  method CountFirst(seen: array<int>, number: int, t: Triple, ghost ts: seq<Triple>) returns (number': int)
    requires 0 <= t.kind < 8 && Marks(seen, ts) && number == SumOfFirsts(ts, 8)
    modifies seen
    ensures Marks(seen, ts + [t]) && number' == SumOfFirsts(ts + [t], 8)
  {
    SumOfFirstsSnoc(ts, t, 8);
    SeenSnoc(ts, t);
    number' := number;
    if seen[t.kind] != 1 {
      number' := number + Worth(t.kind, t.realized);
      seen[t.kind] := 1;
    }
  }

  /** `done` are the triples of the first `j` fields, all of which converted. */
  predicate UsedUpTo(fields: seq<Field>, j: nat, done: seq<Triple>) {
    && j <= |fields| && Used(fields) == done + Used(fields[j..])
    && forall i :: 0 <= i < j ==> fields[i].Parsed?
  }

  lemma UsedNext(fields: seq<Field>, j: nat, done: seq<Triple>)
    requires UsedUpTo(fields, j, done)
    ensures j == |fields| || fields[j].Unparsed? ==> Used(fields) == done
    ensures j < |fields| && fields[j].Parsed? ==> UsedUpTo(fields, j + 1, done + [fields[j].triple])
  {
    assert done + [] == done;
    if j < |fields| && fields[j].Parsed? {
      var t := fields[j].triple;
      assert fields[j..][1..] == fields[j + 1..];
      assert done + ([t] + Used(fields[j + 1..])) == done + [t] + Used(fields[j + 1..]);
    }
  }

  /** The activities of one organisation. */
  method ProcessOrg(org: Org, reps: seq<Amount>, ghost ts: seq<Triple>)
    returns (number: int, reps': seq<Amount>, ok: bool)
    requires org.Org? && KindsOk(org) && Balanced(reps, ts)
    ensures ok <==> AllParsed(org.fields)
    ensures number == SumOfFirsts(Used(org.fields), 8)
    ensures Balanced(reps', ts + Used(org.fields))
  {
    number, reps', ok := 0, reps, true;
    var seen := new int[8](_ => 0);
    var j := 0;
    ghost var done: seq<Triple> := [];
    assert ts + done == ts;
    SumOfNothing(8);
    while j < |org.fields|
      invariant UsedUpTo(org.fields, j, done)
      invariant Marks(seen, done) && number == SumOfFirsts(done, 8)
      invariant Balanced(reps', ts + done)
    {
      UsedNext(org.fields, j, done);
      if org.fields[j].Unparsed? {
        return number, reps', false;
      }
      var t := org.fields[j].triple;
      number := CountFirst(seen, number, t, done);
      reps' := Credit(reps', t, ts + done);
      assert ts + done + [t] == ts + (done + [t]);
      done := done + [t];
      j := j + 1;
    }
    UsedNext(org.fields, j, done);
  }

  lemma {:induction false} SumOfNothing(n: nat)
    ensures SumOfFirsts([], n) == 0
  {
    if n > 0 {
      SumOfNothing(n - 1);
    }
  }

  lemma SeenSnoc(ts: seq<Triple>, t: Triple)
    ensures forall kind :: Seen(ts + [t], kind) <==> Seen(ts, kind) || t.kind == kind
  {
    forall kind ensures Seen(ts + [t], kind) <==> Seen(ts, kind) || t.kind == kind {
      if Seen(ts, kind) {
        var i :| 0 <= i < |ts| && ts[i].kind == kind;
        assert (ts + [t])[i].kind == kind;
      }
      assert (ts + [t])[|ts|] == t;
    }
  }

  /** `done` are the triples of the first `i` organisations. */
  predicate ProcessedUpTo(orgs: seq<Org>, i: nat, done: seq<Triple>) {
    i <= |orgs| && Processed(orgs) == done + Processed(orgs[i..])
  }

  lemma Regroup(a: seq<Triple>, b: seq<Triple>, c: seq<Triple>)
    ensures a + (b + c) == a + b + c && b + [] == b
  {
  }

  lemma ProcessedNext(orgs: seq<Org>, i: nat, done: seq<Triple>)
    requires ProcessedUpTo(orgs, i, done)
    ensures i == |orgs| || orgs[i].Malformed? ==> Processed(orgs) == done
    ensures i < |orgs| && orgs[i].Org? && !Good(orgs[i]) ==> Processed(orgs) == done + Used(orgs[i].fields)
    ensures i < |orgs| && Good(orgs[i]) ==> ProcessedUpTo(orgs, i + 1, done + Used(orgs[i].fields))
  {
    assert done + [] == done;
    if i < |orgs| && orgs[i].Org? {
      assert orgs[i..][1..] == orgs[i + 1..];
      Regroup(done, Used(orgs[i].fields), Processed(orgs[i + 1..]));
    }
  }

  predicate PaidOut(org: Org, token: Amount) {
    Good(org) && token == Amount(org.name, SumOfFirsts(Used(org.fields), 8))
  }

  /** Each token amount belongs to the organisation at its position. */
  predicate AllPaidOut(orgs: seq<Org>, tokens: seq<Amount>) {
    |tokens| <= |orgs| && forall i :: 0 <= i < |tokens| ==> PaidOut(orgs[i], tokens[i])
  }

  /** Organisation numbers of the organisations before the first error, and the reputation of
      everybody credited before it. */
  method IssueBurnTokens(orgs: seq<Org>) returns (tokens: seq<Amount>, reps: seq<Amount>, ok: bool)
    requires forall i :: 0 <= i < |orgs| ==> KindsOk(orgs[i])
    ensures AllPaidOut(orgs, tokens)
    ensures if ok then |tokens| == |orgs| else |tokens| < |orgs| && !Good(orgs[|tokens|])
    ensures Balanced(reps, Processed(orgs))
  {
    tokens, reps, ok := [], [], true;
    var i := 0;
    ghost var done: seq<Triple> := [];
    assert Processed(orgs) == done + Processed(orgs[0..]);
    while i < |orgs|
      invariant ProcessedUpTo(orgs, i, done) && |tokens| == i
      invariant AllPaidOut(orgs, tokens)
      invariant Balanced(reps, done)
    {
      var org := orgs[i];
      ProcessedNext(orgs, i, done);
      if org.Malformed? {
        return tokens, reps, false;
      }
      assert KindsOk(org);
      var number, good;
      number, reps, good := ProcessOrg(org, reps, done);
      if !good {
        return tokens, reps, false;
      }
      done := done + Used(org.fields);
      assert PaidOut(org, Amount(org.name, number));
      tokens := tokens + [Amount(org.name, number)];
      i := i + 1;
    }
    ProcessedNext(orgs, i, done);
  }

  // ----- machine integers ------------------------------------------------------------------------------

  lemma {:induction false} EarnedBound(ts: seq<Triple>, name: string)
    ensures -10000 * |ts| <= Earned(ts, name) <= 10000 * |ts|
  {
    if ts != [] {
      EarnedBound(ts[..|ts| - 1], name);
    }
  }

  /** No reputation leaves the 32-bit range while at most 214748 activities are processed. */
  lemma ReputationFits(reps: seq<Amount>, ts: seq<Triple>, k: nat)
    requires Balanced(reps, ts) && k < |reps| && |ts| <= 214748
    ensures -0x8000_0000 <= reps[k].number < 0x8000_0000
  {
    EarnedBound(ts, reps[k].name);
  }
}
