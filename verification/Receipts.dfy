/** Work-order receipts and the history of updates to them.

Two writers append to a history.  The enclave manager stores a record with an
`updateType` of its own.  The listener stores the whole JSON-RPC request, whose
type is under `params`; the request schema admits no other place for it.  Both
writers and the retrieval read the type beside `params`, so they can read the
manager's entries and none of the listener's.
*/
module Receipts {
  import opened Options
  import opened WorkOrders

  /** Section 7.1 of the EEA Off-Chain Trusted Compute Specification. */
  datatype Status = PENDING | COMPLETED | PROCESSED | FAILED | REJECTED

  datatype Update = ByEnclave(kind: Status) | ByListener(kind: Status)

  /** The type a later reader finds in an entry. */
  function Shown(u: Update): Option<Status> {
    match u
    case ByEnclave(kind) => Some(kind)
    case ByListener(_) => None
  }

  type History = seq<Update>

  /** Create statuses by id, and the histories; no history is stored before its first entry. */
  datatype Store = Store(requests: set<Id>, receipts: map<Id, Status>, updates: map<Id, History>)

  function HistoryOf(s: Store, id: Id): History {
    if id in s.updates then s.updates[id] else []
  }

  datatype Outcome = Success | Skipped | Refused | Exception

  datatype Event =
    | Arrive(id: Id)                                               // a request is stored
    | Forget(id: Id)                                               // a purge, boot or cleanup removes the order
    | Create(id: Id, status: Status, valid: bool)
    | EnclaveUpdate(id: Id, failed: bool, built: bool)             // `built`: the SDK made the record
    | ListenerUpdate(id: Id, kind: Status, valid: bool)

  function EnclaveKind(failed: bool): Status {
    if failed then FAILED else PROCESSED
  }

  // ----- the histories that can arise ----------------------------------------------------------

  predicate FirstOk(u: Update) {
    u == ByEnclave(PROCESSED) || u == ByEnclave(FAILED)
  }

  /** A listener entry may stand right after an entry of the enclave. */
  predicate ListenerOk(prev: Update, u: Update) {
    FirstOk(prev) && u.ByListener? && (prev.kind == PROCESSED ==> u.kind == PROCESSED || u.kind == COMPLETED)
  }

  predicate LastOk(h: History) {
    h == [] || FirstOk(h[|h| - 1]) || (|h| >= 2 && ListenerOk(h[|h| - 2], h[|h| - 1]))
  }

  /** Entries of the enclave, then at most one of the listener. */
  predicate Legal(h: History) {
    (forall i :: 0 <= i < |h| - 1 ==> FirstOk(h[i])) && LastOk(h)
  }

  lemma LegalSnoc(h: History, u: Update)
    ensures Legal(h + [u]) <==>
              && Legal(h) && (h != [] ==> FirstOk(h[|h| - 1]))
              && (FirstOk(u) || (h != [] && ListenerOk(h[|h| - 1], u)))
  {
    var k := h + [u];
    assert forall i :: 0 <= i < |h| ==> k[i] == h[i];
    if Legal(k) {
      assert h != [] ==> FirstOk(k[|h| - 1]);
    }
  }

  // ----- the writers -----------------------------------------------------------------------------

  function Append(s: Store, id: Id, u: Update): Store {
    s.(updates := s.updates[id := HistoryOf(s, id) + [u]])
  }

  predicate HasLast(s: Store, id: Id) {
    HistoryOf(s, id) != []
  }

  function LastOf(s: Store, id: Id): Update
    requires HasLast(s, id)
  {
    HistoryOf(s, id)[|HistoryOf(s, id)| - 1]
  }

  class ReceiptTables {
    var s: Store

    /** No empty history is ever stored. */
    ghost predicate Valid()
      reads this
    {
      forall id :: id in s.updates ==> s.updates[id] != []
    }

    constructor (s: Store)
      requires forall id :: id in s.updates ==> s.updates[id] != []
      ensures this.s == s && Valid()
    {
      this.s := s;
    }

    method WorkOrderReceiptCreate(id: Id, status: Status, valid: bool) returns (outcome: Outcome)
      requires Valid()
      modifies this
      ensures Valid()
      ensures (s, outcome) == Step(old(s), Create(id, status, valid))
      ensures outcome == Success <==> id in old(s).requests && id !in old(s).receipts && valid
      ensures outcome == Success ==> s.receipts == old(s).receipts[id := status] && s.updates == old(s).updates
      ensures outcome != Success ==> s == old(s)
    {
      if id !in s.requests {
        return Refused;
      }
      if id in s.receipts {
        return Refused;
      }
      if !valid {
        return Refused;
      }
      s := s.(receipts := s.receipts[id := status]);
      return Success;
    }

    /** The enclave manager's `update_receipt`. */
    method UpdateFromEnclave(id: Id, failed: bool, built: bool) returns (outcome: Outcome)
      requires Valid()
      modifies this
      ensures Valid()
      ensures (s, outcome) == Step(old(s), EnclaveUpdate(id, failed, built))
      ensures outcome == Exception <==>
                id in s.receipts && (!built || (HasLast(old(s), id) && LastOf(old(s), id).ByListener?))
      ensures outcome == Skipped <==>
                id !in s.receipts || (built && HasLast(old(s), id) && LastOf(old(s), id) == ByEnclave(COMPLETED))
      ensures outcome == Success ==>
                s == old(s).(updates := old(s).updates[
                       id := HistoryOf(old(s), id) + [ByEnclave(if failed then FAILED else PROCESSED)]])
      ensures outcome != Success ==> s == old(s)
    {
      if id !in s.receipts {
        return Skipped;
      }
      if !built {
        return Exception;
      }
      var history: History := [];
      if id in s.updates {
        history := s.updates[id];
        var last := history[|history| - 1];
        if Shown(last) == None {
          return Exception;
        }
        if Shown(last) == Some(COMPLETED) {
          return Skipped;
        }
      }
      history := history + [ByEnclave(if failed then FAILED else PROCESSED)];
      s := s.(updates := s.updates[id := history]);
      return Success;
    }

    method WorkOrderReceiptUpdate(id: Id, kind: Status, valid: bool) returns (outcome: Outcome)
      requires Valid()
      modifies this
      ensures Valid()
      ensures (s, outcome) == Step(old(s), ListenerUpdate(id, kind, valid))
      ensures outcome == Exception <==>
                id in s.receipts && valid && (!HasLast(old(s), id) || LastOf(old(s), id).ByListener?)
      ensures outcome == Refused <==>
                || id !in s.receipts || !valid
                || (HasLast(old(s), id)
                    && (|| LastOf(old(s), id) == ByEnclave(COMPLETED)
                        || (LastOf(old(s), id) == ByEnclave(PROCESSED) && kind in {PENDING, FAILED, REJECTED})))
      ensures outcome == Success ==>
                s == old(s).(updates := old(s).updates[id := HistoryOf(old(s), id) + [ByListener(kind)]])
      ensures outcome != Success ==> outcome != Skipped && s == old(s)
    {
      if id !in s.receipts {
        return Refused;
      }
      if !valid {
        return Refused;
      }
      var history: History := [];
      if id in s.updates {
        history := s.updates[id];
      }
      if history == [] {
        return Exception;
      }
      var last := Shown(history[|history| - 1]);
      if last == None {
        return Exception;
      }
      if last.value == COMPLETED {
        return Refused;
      }
      if last.value == PROCESSED {
        if kind in {PENDING, FAILED, REJECTED} {
          return Refused;
        }
      }
      history := history + [ByListener(kind)];
      s := s.(updates := s.updates[id := history]);
      return Success;
    }

    /** The current status of a receipt: that of the last update, or the one it was created with. */
    method WorkOrderReceiptRetrieve(id: Id) returns (status: Option<Status>, outcome: Outcome)
      requires Valid()
      ensures outcome == Refused <==> id !in s.receipts
      ensures outcome == Exception <==> id in s.receipts && CurrentStatus(s, id) == None
      ensures outcome == Success ==> status == CurrentStatus(s, id)
      ensures id in s.receipts && id !in s.updates ==> outcome == Success && status == Some(s.receipts[id])
      ensures id in s.receipts && id in s.updates ==>
                match s.updates[id][|s.updates[id]| - 1]
                case ByEnclave(kind) => outcome == Success && status == Some(kind)
                case ByListener(_) => outcome == Exception
      ensures outcome != Skipped
    {
      if id !in s.receipts {
        return None, Refused;
      }
      if id !in s.updates {
        return Some(s.receipts[id]), Success;
      }
      var last := s.updates[id][|s.updates[id]| - 1];
      if Shown(last) == None {
        return None, Exception;
      }
      return Shown(last), Success;
    }
  }

  function CurrentStatus(s: Store, id: Id): Option<Status>
    requires id in s.receipts
  {
    var h := HistoryOf(s, id);
    if h == [] then Some(s.receipts[id]) else Shown(h[|h| - 1])
  }

  // ----- steps and runs --------------------------------------------------------------------------

  /** What one event does, read off the history alone. */
  function Step(s: Store, e: Event): (Store, Outcome) {
    var h := HistoryOf(s, e.id);
    match e
    case Arrive(id) => (s.(requests := s.requests + {id}), Success)
    case Forget(id) => (s.(requests := s.requests - {id}, receipts := s.receipts - {id}), Success)
    case Create(id, status, valid) =>
      if id !in s.requests || id in s.receipts || !valid then (s, Refused)
      else (s.(receipts := s.receipts[id := status]), Success)
    case EnclaveUpdate(id, failed, built) =>
      if id !in s.receipts then (s, Skipped)
      else if !built || (h != [] && Shown(h[|h| - 1]) == None) then (s, Exception)
      else if h != [] && Shown(h[|h| - 1]) == Some(COMPLETED) then (s, Skipped)
      else (Append(s, id, ByEnclave(EnclaveKind(failed))), Success)
    case ListenerUpdate(id, kind, valid) =>
      if id !in s.receipts || !valid then (s, Refused)
      else if h == [] || Shown(h[|h| - 1]) == None then (s, Exception)
      else if !Follows(Shown(h[|h| - 1]).value, kind) then (s, Refused)
      else (Append(s, id, ByListener(kind)), Success)
  }

  /** The listener's rule for the next type. */
  predicate Follows(last: Status, kind: Status) {
    last != COMPLETED && (last == PROCESSED ==> kind != PENDING && kind != FAILED && kind != REJECTED)
  }

  function Run(s: Store, es: seq<Event>): Store {
    if es == [] then s else Step(Run(s, es[..|es| - 1]), es[|es| - 1]).0
  }

  const EMPTY := Store({}, map[], map[])

  predicate Carries(e: Event, u: Update) {
    || (e.EnclaveUpdate? && e.built && u == ByEnclave(EnclaveKind(e.failed)))
    || (e.ListenerUpdate? && e.valid && u == ByListener(e.kind))
  }

  /** One step either leaves a history alone or appends the update it carries, keeping it legal. */
  lemma StepAppends(s: Store, e: Event, id: Id)
    requires Legal(HistoryOf(s, id))
    ensures var h, h' := HistoryOf(s, id), HistoryOf(Step(s, e).0, id);
            && Legal(h')
            && (h' == h || (e.id == id && |h'| == |h| + 1 && h' == h + [h'[|h|]] && Carries(e, h'[|h|])))
  {
    var h := HistoryOf(s, id);
    match e
    case Arrive(_) =>
    case Forget(_) =>
    case Create(_, _, _) =>
    case EnclaveUpdate(_, failed, _) => LegalSnoc(h, ByEnclave(EnclaveKind(failed)));
    case ListenerUpdate(_, kind, _) => LegalSnoc(h, ByListener(kind));
  }

  /** Over every run an earlier history is a prefix of the later one and stays legal. */
  lemma {:induction false} HistoriesGrowLegally(s: Store, es: seq<Event>, id: Id)
    requires Legal(HistoryOf(s, id))
    ensures HistoryOf(s, id) <= HistoryOf(Run(s, es), id)
    ensures Legal(HistoryOf(Run(s, es), id))
  {
    if es != [] {
      HistoriesGrowLegally(s, es[..|es| - 1], id);
      StepAppends(Run(s, es[..|es| - 1]), es[|es| - 1], id);
    }
  }

  // ----- every legal history arises ----------------------------------------------------------------

  function EventFor(id: Id, u: Update): Event {
    match u
    case ByEnclave(kind) => EnclaveUpdate(id, kind == FAILED, true)
    case ByListener(kind) => ListenerUpdate(id, kind, true)
  }

  function EventsFor(id: Id, h: History): seq<Event> {
    if h == [] then [Arrive(id), Create(id, PENDING, true)]
    else EventsFor(id, h[..|h| - 1]) + [EventFor(id, h[|h| - 1])]
  }

  lemma RunSnoc(s: Store, es: seq<Event>, e: Event)
    ensures Run(s, es + [e]) == Step(Run(s, es), e).0
  {
    assert (es + [e])[..|es|] == es;
  }

  predicate Reaches(es: seq<Event>, id: Id, h: History) {
    id in Run(EMPTY, es).receipts && HistoryOf(Run(EMPTY, es), id) == h
  }

  lemma NewReceipt(id: Id)
    ensures Reaches([Arrive(id), Create(id, PENDING, true)], id, [])
  {
    RunSnoc(EMPTY, [], Arrive(id));
    RunSnoc(EMPTY, [Arrive(id)], Create(id, PENDING, true));
    assert [] + [Arrive(id)] == [Arrive(id)];
    assert [Arrive(id)] + [Create(id, PENDING, true)] == [Arrive(id), Create(id, PENDING, true)];
  }

  /** A valid update of an existing receipt is stored exactly when the history stays legal. */
  lemma UpdateStoredIffLegal(s: Store, id: Id, u: Update)
    requires id in s.receipts && Legal(HistoryOf(s, id)) && (u.ByEnclave? ==> FirstOk(u))
    ensures Step(s, EventFor(id, u)).1 == Success <==> Legal(HistoryOf(s, id) + [u])
    ensures Step(s, EventFor(id, u)).1 == Success ==> Step(s, EventFor(id, u)).0 == Append(s, id, u)
  {
    LegalSnoc(HistoryOf(s, id), u);
  }

  lemma OneMoreUpdate(es: seq<Event>, id: Id, h: History, u: Update)
    requires Reaches(es, id, h) && Legal(h + [u])
    ensures Reaches(es + [EventFor(id, u)], id, h + [u])
  {
    RunSnoc(EMPTY, es, EventFor(id, u));
    LegalSnoc(h, u);
    UpdateStoredIffLegal(Run(EMPTY, es), id, u);
  }

  lemma {:induction false} EventsForReach(id: Id, h: History)
    requires Legal(h)
    ensures Reaches(EventsFor(id, h), id, h)
  {
    if h == [] {
      NewReceipt(id);
    } else {
      var init, u := h[..|h| - 1], h[|h| - 1];
      assert h == init + [u];
      LegalSnoc(init, u);
      EventsForReach(id, init);
      OneMoreUpdate(EventsFor(id, init), id, init, u);
    }
  }

  /** If the checks may accept any update request and the SDK may build any record, the histories
      that arise are exactly entries of the enclave followed by at most one of the listener. */
  lemma HistoriesExact(id: Id, h: History)
    ensures (exists es :: HistoryOf(Run(EMPTY, es), id) == h) <==> Legal(h)
  {
    if es :| HistoryOf(Run(EMPTY, es), id) == h {
      HistoriesGrowLegally(EMPTY, es, id);
    }
    if Legal(h) {
      EventsForReach(id, h);
      assert Reaches(EventsFor(id, h), id, h);
    }
  }

  // ----- what the grammar means ------------------------------------------------------------------------

  /** COMPLETED and every entry of the listener come last, the enclave comes first, and after PROCESSED
      the listener adds only PROCESSED or COMPLETED. */
  lemma EntriesInOrder(h: History, i: nat)
    requires Legal(h) && i < |h|
    ensures h[i].kind == COMPLETED || h[i].ByListener? ==> i == |h| - 1 && i > 0
    ensures h[0] == ByEnclave(PROCESSED) || h[0] == ByEnclave(FAILED)
    ensures i > 0 && h[i - 1].kind == PROCESSED && h[i].ByListener? ==> h[i].kind == PROCESSED || h[i].kind == COMPLETED
  {
    assert i < |h| - 1 ==> FirstOk(h[i]);
    assert i > 0 ==> FirstOk(h[i - 1]);
  }

  predicate Ended(s: Store, id: Id) {
    var h := HistoryOf(s, id);
    Legal(h) && h != [] && h[|h| - 1].ByListener?
  }

  /** An entry of the listener ends its history: over every later run nothing is added, and while
      the receipt exists every valid update and every retrieval is an exception. */
  lemma {:induction false} ListenerEntryEnds(s: Store, es: seq<Event>, id: Id, kind: Status, failed: bool, built: bool)
    requires Ended(s, id)
    ensures var s' := Run(s, es);
            && HistoryOf(s', id) == HistoryOf(s, id)
            && (id in s'.receipts ==>
                  && Step(s', EnclaveUpdate(id, failed, built)) == (s', Exception)
                  && Step(s', ListenerUpdate(id, kind, true)) == (s', Exception)
                  && CurrentStatus(s', id) == None)
  {
    var h, h' := HistoryOf(s, id), HistoryOf(Run(s, es), id);
    HistoriesGrowLegally(s, es, id);
    assert h'[|h| - 1] == h[|h| - 1] && !FirstOk(h[|h| - 1]);
  }

  /** No update is ever turned away because the last one is COMPLETED: such an entry cannot be read. */
  lemma {:induction false} CompletedIsNeverSeen(id: Id, es: seq<Event>)
    ensures var h := HistoryOf(Run(EMPTY, es), id);
            h != [] ==> Shown(h[|h| - 1]) != Some(COMPLETED)
  {
    HistoriesGrowLegally(EMPTY, es, id);
  }

  /** A created receipt keeps its status, and no second one is created, until the order is forgotten. */
  lemma {:induction false} CreatedOnce(s: Store, es: seq<Event>, id: Id, status: Status, valid: bool)
    requires id in s.receipts && forall i :: 0 <= i < |es| ==> es[i] != Forget(id)
    ensures var s' := Run(s, es);
            && id in s'.receipts && s'.receipts[id] == s.receipts[id]
            && Step(s', Create(id, status, valid)) == (s', Refused)
  {
    if es != [] {
      CreatedOnce(s, es[..|es| - 1], id, status, valid);
    }
  }

  // ----- the checks and the builder as written --------------------------------------------------------------------------

  const KNOWN := {"workOrderId", "updaterId", "updateType", "updateData", "updateSignature", "signatureRules",
                  "receiptVerificationKey"}
  const HEX := {"workOrderId", "updaterId"}
  const BASE64 := {"updateData", "updateSignature"}

  datatype Verdict = Passed | Failed | Raised

  /** A known name whose value, if it is one of the encoded ones, stands beside the parameters in the
      right encoding. */
  predicate FieldOk(key: string, top: set<string>, wellFormed: set<string>) {
    && key in {"workOrderId", "updaterId", "updateType", "updateData", "updateSignature", "signatureRules",
               "receiptVerificationKey"}
    && (key in {"workOrderId", "updaterId", "updateData", "updateSignature"} ==> key in top && key in wellFormed)
  }

  /** The field checks of an update request with parameters `params`, in order, and the names `top`
      beside them, of which the request schema lets only four be there; `wellFormed` says which values
      have the right encoding. */
  method CheckFields(params: seq<string>, top: set<string>, wellFormed: set<string>) returns (verdict: Verdict)
    ensures verdict == Passed <==> forall i :: 0 <= i < |params| ==> FieldOk(params[i], top, wellFormed)
    ensures verdict == Raised <==>
              exists i :: 0 <= i < |params| && params[i] in {"workOrderId", "updaterId"} && params[i] !in top
                          && forall j :: 0 <= j < i ==> FieldOk(params[j], top, wellFormed)
    ensures "workOrderId" in params && top <= {"jsonrpc", "id", "method", "params"} ==> verdict != Passed
  {
    var i := 0;
    while i < |params|
      invariant 0 <= i <= |params|
      invariant forall j :: 0 <= j < i ==> FieldOk(params[j], top, wellFormed)
    {
      var key := params[i];
      if key !in KNOWN {
        return Failed;
      }
      if key in HEX {
        if key !in top {
          return Raised;
        }
        if key !in wellFormed {
          return Failed;
        }
      } else if key in BASE64 {
        if key !in top || key !in wellFormed {
          return Failed;
        }
      }
      i := i + 1;
    }
    return Passed;
  }

  predicate NonePasses(es: seq<Event>) {
    forall i :: 0 <= i < |es| ==> es[i].ListenerUpdate? ==> !es[i].valid
  }

  predicate ByEnclaveOnly(h: History) {
    forall i :: 0 <= i < |h| ==> FirstOk(h[i])
  }

  lemma {:induction false} UncheckedNeverStored(es: seq<Event>, id: Id)
    requires NonePasses(es)
    ensures ByEnclaveOnly(HistoryOf(Run(EMPTY, es), id))
  {
    if es != [] {
      var init := es[..|es| - 1];
      UncheckedNeverStored(init, id);
      HistoriesGrowLegally(EMPTY, init, id);
      StepAppends(Run(EMPTY, init), es[|es| - 1], id);
    }
  }

  /** If, as with the checks as written, no update request passes, exactly the histories of
      the enclave alone arise. */
  lemma HistoriesAsChecked(id: Id, h: History)
    ensures (exists es :: NonePasses(es) && HistoryOf(Run(EMPTY, es), id) == h) <==> ByEnclaveOnly(h)
  {
    if es :| NonePasses(es) && HistoryOf(Run(EMPTY, es), id) == h {
      UncheckedNeverStored(es, id);
    }
    if ByEnclaveOnly(h) {
      EventsForReach(id, h);
      EnclaveEvents(id, h);
      assert NonePasses(EventsFor(id, h));
    }
  }

  lemma {:induction false} EnclaveEvents(id: Id, h: History)
    requires ByEnclaveOnly(h)
    ensures NonePasses(EventsFor(id, h))
  {
    if h != [] {
      EnclaveEvents(id, h[..|h| - 1]);
    }
  }

  predicate NoneBuilt(es: seq<Event>) {
    forall i :: 0 <= i < |es| ==> es[i].EnclaveUpdate? ==> !es[i].built
  }

  /** If, as with the SDK's builder as written, no record is ever built, no history arises, whatever
      the checks accept: every receipt shows the status it was created with, and every valid
      update of it is an exception. */
  lemma {:induction false} NothingArisesUnbuilt(es: seq<Event>, id: Id, kind: Status)
    requires NoneBuilt(es)
    ensures var s := Run(EMPTY, es);
            && HistoryOf(s, id) == []
            && (id in s.receipts ==>
                  && CurrentStatus(s, id) == Some(s.receipts[id])
                  && Step(s, ListenerUpdate(id, kind, true)) == (s, Exception))
  {
    if es != [] {
      NothingArisesUnbuilt(es[..|es| - 1], id, kind);
    }
  }
}
