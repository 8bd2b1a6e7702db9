/** The enclave manager's side: taking orders off its worker's queue, and the cleanup it
runs when it restarts. */
module EnclaveManager {
  import opened WorkOrders
  import opened Recovery
  import R = Receipts

  /** Executing a request in the enclave; only success or failure matters here. */
  type Enclave = Request -> bool

  /** What the manager stores for a request; text that does not parse never reaches the enclave. */
  function ResponseTo(r: Request, enclave: Enclave): Response {
    Response(r, !r.parses || enclave(r))
  }

  /** One order taken to its end; an order without a stored request is dropped. */
  function OrderDone(kv: Kv, w: Worker, p: Identity, id: Id, enclave: Enclave): Kv {
    var cleared := kv.(processing := kv.processing - {p});
    if id !in kv.requests then cleared
    else
      cleared.(responses := kv.responses[id := ResponseTo(kv.requests[id], enclave)],
               processed := SetRow(kv.processed, w, Row(kv.processed, w) + [id]))
  }

  function HeadTaken(kv: Kv, w: Worker): Kv
    requires Row(kv.scheduled, w) != []
  {
    kv.(scheduled := SetRow(kv.scheduled, w, Row(kv.scheduled, w)[1..]))
  }

  /** The first `n` orders of the queue of `w` worked off. */
  function Drained(kv: Kv, w: Worker, p: Identity, enclave: Enclave, n: nat): Kv
    requires n <= |Row(kv.scheduled, w)|
    decreases n
  {
    if n == 0 then kv
    else
      FirstDoneLists(kv, w, p, enclave);
      Drained(FirstDone(kv, w, p, enclave), w, p, enclave, n - 1)
  }

  /** Ids of a list that have a stored request. */
  function WithRequest(l: seq<Id>, requests: map<Id, Request>): seq<Id> {
    if l == [] then []
    else (if l[0] in requests then [l[0]] else []) + WithRequest(l[1..], requests)
  }

  function FirstDone(kv: Kv, w: Worker, p: Identity, enclave: Enclave): Kv
    requires Row(kv.scheduled, w) != []
  {
    OrderDone(HeadTaken(kv, w), w, p, Row(kv.scheduled, w)[0], enclave)
  }

  lemma FirstDoneLists(kv: Kv, w: Worker, p: Identity, enclave: Enclave)
    requires Row(kv.scheduled, w) != []
    ensures var next, q := FirstDone(kv, w, p, enclave), Row(kv.scheduled, w);
            && Row(next.scheduled, w) == q[1..] && next.requests == kv.requests
            && Row(next.processed, w) == Row(kv.processed, w) + (if q[0] in kv.requests then [q[0]] else [])
            && forall v :: v != w ==> Row(next.scheduled, v) == Row(kv.scheduled, v)
                                      && Row(next.processed, v) == Row(kv.processed, v)
  {
  }

  lemma DrainedStep(kv: Kv, w: Worker, p: Identity, enclave: Enclave, n: nat)
    requires 0 < n <= |Row(kv.scheduled, w)|
    ensures |Row(FirstDone(kv, w, p, enclave).scheduled, w)| == |Row(kv.scheduled, w)| - 1
    ensures Drained(kv, w, p, enclave, n) == Drained(FirstDone(kv, w, p, enclave), w, p, enclave, n - 1)
  {
    FirstDoneLists(kv, w, p, enclave);
  }

  /** Working orders off takes them from the front of the queue. */
  lemma {:induction false} DrainedQueue(kv: Kv, w: Worker, p: Identity, enclave: Enclave, n: nat)
    requires n <= |Row(kv.scheduled, w)|
    ensures Row(Drained(kv, w, p, enclave, n).scheduled, w) == Row(kv.scheduled, w)[n..]
    decreases n
  {
    if n > 0 {
      FirstDoneLists(kv, w, p, enclave);
      DrainedQueue(FirstDone(kv, w, p, enclave), w, p, enclave, n - 1);
    }
  }

  lemma WithRequestStep(l: seq<Id>, q: seq<Id>, n: nat, requests: map<Id, Request>)
    requires 0 < n <= |q|
    ensures l + (if q[0] in requests then [q[0]] else []) + WithRequest(q[1..][..n - 1], requests) ==
            l + WithRequest(q[..n], requests)
  {
    assert q[..n][1..] == q[1..][..n - 1];
  }

  /** They are listed as processed in queue order. */
  lemma {:induction false} DrainedLists(kv: Kv, w: Worker, p: Identity, enclave: Enclave, n: nat)
    requires n <= |Row(kv.scheduled, w)|
    ensures Row(Drained(kv, w, p, enclave, n).processed, w) ==
            Row(kv.processed, w) + WithRequest(Row(kv.scheduled, w)[..n], kv.requests)
    decreases n
  {
    var q := Row(kv.scheduled, w);
    if n > 0 {
      FirstDoneLists(kv, w, p, enclave);
      DrainedLists(FirstDone(kv, w, p, enclave), w, p, enclave, n - 1);
      WithRequestStep(Row(kv.processed, w), q, n, kv.requests);
    }
  }

  lemma {:induction false} OneMoreDrained(kv: Kv, w: Worker, p: Identity, enclave: Enclave, n: nat)
    requires n < |Row(kv.scheduled, w)|
    ensures Row(Drained(kv, w, p, enclave, n).scheduled, w) != []
    ensures Drained(kv, w, p, enclave, n + 1) == FirstDone(Drained(kv, w, p, enclave, n), w, p, enclave)
    decreases n
  {
    FirstDoneLists(kv, w, p, enclave);
    if n > 0 {
      OneMoreDrained(FirstDone(kv, w, p, enclave), w, p, enclave, n - 1);
    }
  }

  /** No other worker's lists move. */
  lemma {:induction false} DrainedOthers(kv: Kv, w: Worker, p: Identity, enclave: Enclave, n: nat, v: Worker)
    requires n <= |Row(kv.scheduled, w)| && v != w
    ensures var kv' := Drained(kv, w, p, enclave, n);
            Row(kv'.scheduled, v) == Row(kv.scheduled, v) && Row(kv'.processed, v) == Row(kv.processed, v)
    decreases n
  {
    if n > 0 {
      FirstDoneLists(kv, w, p, enclave);
      DrainedOthers(FirstDone(kv, w, p, enclave), w, p, enclave, n - 1, v);
    }
  }

  /** Every order worked off is answered for its own stored request, as failed if the request does not
      parse or its execution fails; other answers, the requests, the timestamps and the receipts stay. */
  lemma {:induction false} DrainedAnswers(kv: Kv, w: Worker, p: Identity, enclave: Enclave, n: nat, id: Id)
    requires n <= |Row(kv.scheduled, w)|
    ensures var kv', q := Drained(kv, w, p, enclave, n), Row(kv.scheduled, w);
            && kv'.stamps == kv.stamps && kv'.requests == kv.requests && kv'.receipts == kv.receipts
            && if id in q[..n] && id in kv.requests
               then && id in kv'.responses && kv'.responses[id].request == kv.requests[id]
                    && (kv'.responses[id].failed <==> !kv.requests[id].parses || enclave(kv.requests[id]))
               else (id in kv'.responses <==> id in kv.responses)
                    && (id in kv.responses ==> kv'.responses[id] == kv.responses[id])
    decreases n
  {
    var q := Row(kv.scheduled, w);
    if n > 0 {
      FirstDoneLists(kv, w, p, enclave);
      DrainedAnswers(FirstDone(kv, w, p, enclave), w, p, enclave, n - 1, id);
      assert q[..n] == [q[0]] + q[1..][..n - 1];
    }
  }

  /** The processor's own entry is cleared, others stay. */
  lemma {:induction false} DrainedEntries(kv: Kv, w: Worker, p: Identity, enclave: Enclave, n: nat)
    requires n <= |Row(kv.scheduled, w)|
    ensures Drained(kv, w, p, enclave, n).processing == if n == 0 then kv.processing else kv.processing - {p}
    decreases n
  {
    if n > 0 {
      FirstDoneLists(kv, w, p, enclave);
      DrainedEntries(FirstDone(kv, w, p, enclave), w, p, enclave, n - 1);
      assert kv.processing - {p} - {p} == kv.processing - {p};
    }
  }

  /** The first `n` orders worked off, the next one in hand for good. */
  function StuckAfter(kv: Kv, w: Worker, p: Identity, enclave: Enclave, n: nat): Kv
    requires n < |Row(kv.scheduled, w)|
  {
    OneMoreDrained(kv, w, p, enclave, n);
    var done := Drained(kv, w, p, enclave, n);
    HeadTaken(done, w).(processing := done.processing[p := Row(kv.scheduled, w)[n]])
  }

  // ----- receipts ---------------------------------------------------------------------------------

  type Updates = map<Id, R.History>

  predicate Readable(updates: Updates, id: Id) {
    id in updates && updates[id] != [] ==> R.Shown(updates[id][|updates[id]| - 1]).Some?
  }

  /** Updating the receipt of the order is an exception: the SDK does not build the record, or the
      last entry cannot be read. */
  predicate Blocked(kv: Kv, updates: Updates, builds: bool, id: Id) {
    id in kv.requests && kv.requests[id].parses && id in kv.receipts && (!builds || !Readable(updates, id))
  }

  /** The histories after an order that is not blocked: one entry more if it has a receipt. */
  function Noted(kv: Kv, updates: Updates, id: Id, enclave: Enclave): Updates {
    if id !in kv.requests || !kv.requests[id].parses || id !in kv.receipts then updates
    else
      var store := R.Store({}, map[id := R.PENDING], updates);
      R.Step(store, R.EnclaveUpdate(id, enclave(kv.requests[id]), true)).0.updates
  }

  /** The histories after the first orders of a queue. */
  function NotedAll(kv: Kv, updates: Updates, q: seq<Id>, enclave: Enclave): Updates {
    if q == [] then updates
    else Noted(kv, NotedAll(kv, updates, q[..|q| - 1], enclave), q[|q| - 1], enclave)
  }

  /** Position of the first blocked order, or the length when there is none. */
  function FirstBlocked(kv: Kv, updates: Updates, builds: bool, q: seq<Id>): (n: nat)
    ensures n <= |q| && (n < |q| ==> Blocked(kv, updates, builds, q[n]))
    ensures forall i :: 0 <= i < n ==> !Blocked(kv, updates, builds, q[i])
  {
    if q == [] || Blocked(kv, updates, builds, q[0]) then 0 else 1 + FirstBlocked(kv, updates, builds, q[1..])
  }

  /** Working off one order that is not blocked blocks no other and frees none. */
  lemma SameBlocks(kv: Kv, updates: Updates, builds: bool, kv': Kv, id: Id, enclave: Enclave, q: seq<Id>)
    requires !Blocked(kv, updates, builds, id) && kv'.requests == kv.requests && kv'.receipts == kv.receipts
    ensures FirstBlocked(kv', Noted(kv, updates, id, enclave), builds, q) == FirstBlocked(kv, updates, builds, q)
  {
    var updates' := Noted(kv, updates, id, enclave);
    forall x ensures Blocked(kv', updates', builds, x) <==> Blocked(kv, updates, builds, x) {}
    SameFirst(kv, updates, builds, kv', updates', q);
  }

  lemma {:induction false} SameFirst(kv: Kv, updates: Updates, builds: bool, kv': Kv, updates': Updates, q: seq<Id>)
    requires forall x :: Blocked(kv', updates', builds, x) <==> Blocked(kv, updates, builds, x)
    ensures FirstBlocked(kv', updates', builds, q) == FirstBlocked(kv, updates, builds, q)
  {
    if q != [] {
      SameFirst(kv, updates, builds, kv', updates', q[1..]);
    }
  }

  /** `kv` and `updates` are those of the start after `n` orders, none of them blocked. */
  predicate Progress(kv0: Kv, updates0: Updates, w: Worker, p: Identity, enclave: Enclave, builds: bool,
                     kv: Kv, updates: Updates, n: nat)
  {
    var q := Row(kv0.scheduled, w);
    && n <= FirstBlocked(kv0, updates0, builds, q)
    && kv == Drained(kv0, w, p, enclave, n) && Row(kv.scheduled, w) == q[n..]
    && kv.requests == kv0.requests && kv.receipts == kv0.receipts
    && updates == NotedAll(kv0, updates0, q[..n], enclave)
    && FirstBlocked(kv, updates, builds, q[n..]) == FirstBlocked(kv0, updates0, builds, q) - n
  }

  lemma NothingDrained(kv: Kv, updates: Updates, w: Worker, p: Identity, enclave: Enclave, builds: bool)
    ensures Progress(kv, updates, w, p, enclave, builds, kv, updates, 0)
  {
    var q := Row(kv.scheduled, w);
    assert q[0..] == q && q[..0] == [];
  }

  /** The next order is blocked, or leads one step on. */
  lemma ProgressStep(kv0: Kv, updates0: Updates, w: Worker, p: Identity, enclave: Enclave, builds: bool,
                     kv: Kv, updates: Updates, n: nat)
    requires Progress(kv0, updates0, w, p, enclave, builds, kv, updates, n) && Row(kv.scheduled, w) != []
    ensures var q := Row(kv0.scheduled, w);
            && n < |q| && Row(kv.scheduled, w)[0] == q[n]
            && (Blocked(kv, updates, builds, q[n]) <==> FirstBlocked(kv0, updates0, builds, q) == n)
            && (!Blocked(kv, updates, builds, q[n]) ==>
                  Progress(kv0, updates0, w, p, enclave, builds,
                           FirstDone(kv, w, p, enclave), Noted(kv, updates, q[n], enclave), n + 1))
  {
    var q := Row(kv0.scheduled, w);
    assert q[n..][1..] == q[n + 1..];
    if !Blocked(kv, updates, builds, q[n]) {
      TablesStep(kv0, w, p, enclave, kv, n);
      HistoriesStep(kv0, updates0, q, enclave, kv, updates, n);
      SameBlocks(kv, updates, builds, FirstDone(kv, w, p, enclave), q[n], enclave, q[n + 1..]);
    }
  }

  lemma TablesStep(kv0: Kv, w: Worker, p: Identity, enclave: Enclave, kv: Kv, n: nat)
    requires n < |Row(kv0.scheduled, w)| && kv == Drained(kv0, w, p, enclave, n)
    requires Row(kv.scheduled, w) == Row(kv0.scheduled, w)[n..]
    ensures var kv' := FirstDone(kv, w, p, enclave);
            && kv' == Drained(kv0, w, p, enclave, n + 1) && Row(kv'.scheduled, w) == Row(kv0.scheduled, w)[n + 1..]
            && kv'.requests == kv.requests && kv'.receipts == kv.receipts
  {
    OneMoreDrained(kv0, w, p, enclave, n);
    FirstDoneLists(kv, w, p, enclave);
    assert Row(kv0.scheduled, w)[n..][1..] == Row(kv0.scheduled, w)[n + 1..];
  }

  lemma HistoriesStep(kv0: Kv, updates0: Updates, q: seq<Id>, enclave: Enclave, kv: Kv, updates: Updates, n: nat)
    requires n < |q| && kv.requests == kv0.requests && kv.receipts == kv0.receipts
    requires updates == NotedAll(kv0, updates0, q[..n], enclave)
    ensures Noted(kv, updates, q[n], enclave) == NotedAll(kv0, updates0, q[..n + 1], enclave)
  {
    assert q[..n + 1][..n] == q[..n];
    NotedSame(kv0, kv, updates, q[n], enclave);
  }

  lemma NotedSame(kv: Kv, kv': Kv, updates: Updates, id: Id, enclave: Enclave)
    requires kv'.requests == kv.requests && kv'.receipts == kv.receipts
    ensures Noted(kv', updates, id, enclave) == Noted(kv, updates, id, enclave)
  {
  }

  function HistoryIn(updates: Updates, id: Id): R.History {
    if id in updates then updates[id] else []
  }

  /** How often an id is in a list. */
  function Times(q: seq<Id>, id: Id): nat {
    if q == [] then 0 else Times(q[..|q| - 1], id) + if q[|q| - 1] == id then 1 else 0
  }

  function Repeated(u: R.Update, n: nat): R.History {
    if n == 0 then [] else Repeated(u, n - 1) + [u]
  }

  /** The order is executed, has a receipt, and its history is open. */
  predicate GetsEntries(kv: Kv, updates: Updates, id: Id) {
    var h := HistoryIn(updates, id);
    && id in kv.requests && kv.requests[id].parses && id in kv.receipts
    && (h != [] ==> h[|h| - 1] != R.ByEnclave(R.COMPLETED))
  }

  lemma NotedOne(kv: Kv, updates: Updates, x: Id, enclave: Enclave, id: Id)
    requires !Blocked(kv, updates, true, x)
    ensures var h' := HistoryIn(Noted(kv, updates, x, enclave), id);
            h' == if x == id && GetsEntries(kv, updates, id)
                  then HistoryIn(updates, id) + [R.ByEnclave(if enclave(kv.requests[id]) then R.FAILED else R.PROCESSED)]
                  else HistoryIn(updates, id)
  {
  }

  /** Histories after orders that are not blocked: each executed order with a receipt and an open
      history gets one entry each time it is worked off, FAILED exactly if its execution fails, and no
      other history changes. */
  lemma {:induction false} HistoriesNoted(kv: Kv, updates: Updates, q: seq<Id>, enclave: Enclave, id: Id)
    requires forall i :: 0 <= i < |q| ==> !Blocked(kv, updates, true, q[i])
    ensures var h, h' := HistoryIn(updates, id), HistoryIn(NotedAll(kv, updates, q, enclave), id);
            && (!GetsEntries(kv, updates, id) ==> h' == h)
            && (GetsEntries(kv, updates, id) ==>
                  h' == h + Repeated(R.ByEnclave(if enclave(kv.requests[id]) then R.FAILED else R.PROCESSED), Times(q, id)))
  {
    var h := HistoryIn(updates, id);
    if q != [] {
      var init, x := q[..|q| - 1], q[|q| - 1];
      var before := NotedAll(kv, updates, init, enclave);
      HistoriesNoted(kv, updates, init, enclave, id);
      StaysOpen(kv, updates, init, enclave, id);
      assert !Blocked(kv, updates, true, x);
      StaysOpen(kv, updates, init, enclave, x);
      NotedOne(kv, before, x, enclave, id);
      if GetsEntries(kv, updates, id) {
        OneMoreEntry(h, R.ByEnclave(if enclave(kv.requests[id]) then R.FAILED else R.PROCESSED), Times(init, id));
      }
    } else {
      assert h + [] == h;
    }
  }

  lemma OneMoreEntry(h: R.History, u: R.Update, n: nat)
    ensures h + Repeated(u, n) + [u] == h + Repeated(u, n + 1)
  {
  }

  lemma {:induction false} StaysOpen(kv: Kv, updates: Updates, q: seq<Id>, enclave: Enclave, id: Id)
    requires forall i :: 0 <= i < |q| ==> !Blocked(kv, updates, true, q[i])
    ensures var after := NotedAll(kv, updates, q, enclave);
            && (GetsEntries(kv, after, id) <==> GetsEntries(kv, updates, id))
            && (Blocked(kv, after, true, id) <==> Blocked(kv, updates, true, id))
  {
    if q != [] {
      var init, x := q[..|q| - 1], q[|q| - 1];
      StaysOpen(kv, updates, init, enclave, id);
      StaysOpen(kv, updates, init, enclave, x);
      assert !Blocked(kv, updates, true, x);
      NotedOne(kv, NotedAll(kv, updates, init, enclave), x, enclave, id);
    }
  }

  /** If the SDK builds no records, orders that are not blocked leave every history alone. */
  lemma {:induction false} NothingNoted(kv: Kv, updates: Updates, q: seq<Id>, enclave: Enclave)
    requires forall i :: 0 <= i < |q| ==> !Blocked(kv, updates, false, q[i])
    ensures NotedAll(kv, updates, q, enclave) == updates
  {
    if q != [] {
      NothingNoted(kv, updates, q[..|q| - 1], enclave);
      assert !Blocked(kv, updates, false, q[|q| - 1]);
    }
  }

  lemma AllDrained(kv0: Kv, updates0: Updates, w: Worker, p: Identity, enclave: Enclave, builds: bool,
                   kv: Kv, updates: Updates, n: nat)
    requires Progress(kv0, updates0, w, p, enclave, builds, kv, updates, n) && Row(kv.scheduled, w) == []
    ensures n == |Row(kv0.scheduled, w)| == FirstBlocked(kv0, updates0, builds, Row(kv0.scheduled, w))
    ensures kv == Drained(kv0, w, p, enclave, n)
    ensures updates == NotedAll(kv0, updates0, Row(kv0.scheduled, w)[..n], enclave)
  {
  }

  lemma StuckAt(kv0: Kv, updates0: Updates, w: Worker, p: Identity, enclave: Enclave, builds: bool,
                kv: Kv, updates: Updates, n: nat)
    requires Progress(kv0, updates0, w, p, enclave, builds, kv, updates, n) && Row(kv.scheduled, w) != []
    ensures n < |Row(kv0.scheduled, w)|
    ensures HeadTaken(kv, w).(processing := kv.processing[p := Row(kv.scheduled, w)[0]]) ==
            StuckAfter(kv0, w, p, enclave, n)
    ensures updates == NotedAll(kv0, updates0, Row(kv0.scheduled, w)[..n], enclave)
  {
    OneMoreDrained(kv0, w, p, enclave, n);
  }

  lemma NothingNotedBefore(kv: Kv, updates: Updates, builds: bool, q: seq<Id>, enclave: Enclave)
    ensures !builds ==> NotedAll(kv, updates, q[..FirstBlocked(kv, updates, builds, q)], enclave) == updates
  {
    if !builds {
      NothingNoted(kv, updates, q[..FirstBlocked(kv, updates, false, q)], enclave);
    }
  }

  /** The tables after the cleanup: nothing is left of the orders the worker had processed. */
  function CleanedUp(kv: Kv, w: Worker): Kv {
    var stale := set id | id in Row(kv.processed, w);
    Dropped(kv, stale).(processed := kv.processed - {w})
  }

  lemma DroppedMore(kv: Kv, gone: set<Id>, id: Id)
    ensures Dropped(Dropped(kv, gone), {id}) == Dropped(kv, gone + {id})
  {
    assert kv.stamps - gone - {id} == kv.stamps - (gone + {id});
    assert kv.receipts - gone - {id} == kv.receipts - (gone + {id});
    assert kv.requests - gone - {id} == kv.requests - (gone + {id});
    assert kv.responses - gone - {id} == kv.responses - (gone + {id});
  }

  class Manager {
    const w: Worker
    const identity: Identity
    const enclave: Enclave
    const builds: bool                     // whether the SDK's receipt builder works
    var kv: Kv
    var updates: Updates                   // wo-receipt-updates

    constructor (w: Worker, identity: Identity, enclave: Enclave, builds: bool, kv: Kv, updates: Updates)
      ensures this.w == w && this.identity == identity && this.enclave == enclave && this.builds == builds
      ensures this.kv == kv && this.updates == updates
    {
      this.w, this.identity, this.enclave, this.builds := w, identity, enclave, builds;
      this.kv, this.updates := kv, updates;
    }

    method Persist(id: Id, response: Response)
      modifies this`kv
      ensures kv == old(kv).(responses := old(kv).responses[id := response],
                             processed := SetRow(old(kv).processed, w, Row(old(kv).processed, w) + [id]))
      ensures id in kv.responses && kv.responses[id] == response
      ensures Row(kv.processed, w) == Row(old(kv).processed, w) + [id]
      ensures forall v :: v != w ==> Row(kv.processed, v) == Row(old(kv).processed, v)
    {
      kv := kv.(responses := kv.responses[id := response]);
      kv := kv.(processed := SetRow(kv.processed, w, Row(kv.processed, w) + [id]));
    }

    method UpdateReceipt(id: Id, failed: bool) returns (raised: bool)
      modifies this`updates
      ensures raised <==> id in kv.receipts && (!builds || !Readable(old(updates), id))
      ensures updates == if id !in kv.receipts then old(updates)
                         else R.Step(R.Store({}, map[id := R.PENDING], old(updates)),
                                     R.EnclaveUpdate(id, failed, builds)).0.updates
    {
      if id !in kv.receipts {
        return false;
      }
      if !builds {
        return true;
      }
      var history: R.History := [];
      if id in updates && updates[id] != [] {
        history := updates[id];
        var last := R.Shown(history[|history| - 1]);
        if last.None? {
          return true;
        }
        if last.value == R.COMPLETED {
          return false;
        }
      }
      updates := updates[id := history + [R.ByEnclave(if failed then R.FAILED else R.PROCESSED)]];
      return false;
    }

    /** `raised`: the receipt could not be updated, and the order stays in hand, executed and
        unanswered. */
    method ProcessById(id: Id) returns (raised: bool)
      modifies this
      ensures raised <==> Blocked(old(kv), old(updates), builds, id)
      ensures raised ==> kv == old(kv).(processing := old(kv).processing[identity := id]) && updates == old(updates)
      ensures !raised ==>
                && kv.(processing := kv.processing - {identity}) == OrderDone(old(kv), w, identity, id, enclave)
                && updates == Noted(old(kv), old(updates), id, enclave)
    {
      if id !in kv.requests {
        return false;
      }
      var r := kv.requests[id];
      if !r.parses {
        Persist(id, Response(r, true));
        return false;
      }
      kv := kv.(processing := kv.processing[identity := id]);
      var failed := enclave(r);
      raised := UpdateReceipt(id, failed);
      if !raised {
        Persist(id, Response(r, failed));
      }
    }

    /** The polling loop: pop until the queue is empty or a receipt cannot be updated. */
    method ProcessWorkOrders() returns (raised: bool)
      modifies this
      ensures var q := Row(old(kv).scheduled, w);
              var n := FirstBlocked(old(kv), old(updates), builds, q);
              && (raised <==> n < |q|)
              && updates == NotedAll(old(kv), old(updates), q[..n], enclave)
              && (!raised ==> kv == Drained(old(kv), w, identity, enclave, |q|))
              && (raised ==> kv == StuckAfter(old(kv), w, identity, enclave, n))
      ensures !builds ==> updates == old(updates)
    {
      ghost var n := 0;
      ghost var kv0, updates0 := kv, updates;
      NothingNotedBefore(kv, updates, builds, Row(kv.scheduled, w), enclave);
      NothingDrained(kv, updates, w, identity, enclave, builds);
      while Row(kv.scheduled, w) != []
        invariant Progress(kv0, updates0, w, identity, enclave, builds, kv, updates, n)
        decreases |Row(kv.scheduled, w)|
      {
        ProgressStep(kv0, updates0, w, identity, enclave, builds, kv, updates, n);
        StuckAt(kv0, updates0, w, identity, enclave, builds, kv, updates, n);
        raised := ProcessNext();
        if raised {
          return;
        }
        n := n + 1;
      }
      AllDrained(kv0, updates0, w, identity, enclave, builds, kv, updates, n);
      return false;
    }

    /** Pop the head of the queue and process it. */
    method ProcessNext() returns (raised: bool)
      requires Row(kv.scheduled, w) != []
      modifies this
      ensures var id := Row(old(kv).scheduled, w)[0];
              && (raised <==> Blocked(old(kv), old(updates), builds, id))
              && (!raised ==> kv == FirstDone(old(kv), w, identity, enclave)
                              && updates == Noted(old(kv), old(updates), id, enclave))
              && (raised ==> kv == HeadTaken(old(kv), w).(processing := old(kv).processing[identity := id])
                             && updates == old(updates))
    {
      var id := Row(kv.scheduled, w)[0];
      kv := HeadTaken(kv, w);
      raised := ProcessById(id);
      if !raised {
        kv := kv.(processing := kv.processing - {identity});
      }
    }

    /** Synchronous mode: pop and process `id` only if it is first in the queue. */
    method ProcessSync(id: Id) returns (done: bool, raised: bool)
      modifies this
      ensures done <==> Row(old(kv).scheduled, w) != [] && Row(old(kv).scheduled, w)[0] == id
      ensures raised <==> done && Blocked(old(kv), old(updates), builds, id)
      ensures done && !raised ==> kv == FirstDone(old(kv), w, identity, enclave)
      ensures raised ==> kv == HeadTaken(old(kv), w).(processing := old(kv).processing[identity := id])
      ensures !done ==> kv == old(kv) && updates == old(updates)
    {
      done, raised := Row(kv.scheduled, w) != [] && Row(kv.scheduled, w)[0] == id, false;
      if done {
        raised := ProcessNext();
      }
    }

    method RemoveRows(id: Id)
      modifies this`kv
      ensures kv == Dropped(old(kv), {id})
    {
      kv := kv.(responses := kv.responses - {id});
      kv := kv.(requests := kv.requests - {id});
      kv := kv.(receipts := kv.receipts - {id});
      kv := kv.(stamps := kv.stamps - {id});
    }

    /** Remove everything stored for the orders this worker has processed. */
    method CleanupWorkOrders()
      modifies this`kv
      ensures kv == CleanedUp(old(kv), w)
      ensures Row(kv.processed, w) == []
      ensures forall id :: id in Row(old(kv).processed, w) ==>
                id !in kv.stamps && id !in kv.requests && id !in kv.responses && id !in kv.receipts
      ensures forall id :: id !in Row(old(kv).processed, w) ==>
                && (id in kv.stamps <==> id in old(kv).stamps) && (id in kv.receipts <==> id in old(kv).receipts)
                && (id in kv.requests <==> id in old(kv).requests)
                && (id in kv.requests ==> kv.requests[id] == old(kv).requests[id])
                && (id in kv.responses <==> id in old(kv).responses)
                && (id in kv.responses ==> kv.responses[id] == old(kv).responses[id])
      ensures forall v :: v != w ==> Row(kv.processed, v) == Row(old(kv).processed, v)
      ensures kv.scheduled == old(kv).scheduled && kv.processing == old(kv).processing
    {
      if w !in kv.processed {
        return;
      }
      var l := Row(kv.processed, w);
      var i := 0;
      ghost var gone: set<Id> := {};
      while i < |l|
        invariant 0 <= i <= |l|
        invariant forall id :: id in gone <==> id in l[..i]
        invariant kv == Dropped(old(kv), gone)
      {
        RemoveRows(l[i]);
        DroppedMore(old(kv), gone, l[i]);
        gone := gone + {l[i]};
        i := i + 1;
      }
      assert gone == set id | id in l;
      kv := kv.(processed := kv.processed - {w});
    }
  }
}
