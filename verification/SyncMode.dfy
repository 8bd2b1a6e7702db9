/** Synchronous mode: a submit hands its id to one enclave manager over a socket and waits.

The manager pops the head of its own worker's queue only if that is the id it
was handed.  `delivered` says whether the id reached the manager; whether the
manager's reply then reaches the listener makes no difference to the tables.
*/
module SyncMode {
  import opened Options
  import opened WorkOrders
  import opened Lifecycle
  import opened Recovery
  import opened Handler
  import opened EnclaveManager

  /** The manager at the other end of the socket. */
  datatype Peer = Peer(w: Worker, identity: Identity, enclave: Enclave)

  datatype SyncEvent =
    | Posted(sub: Submit, order: seq<Id>, delivered: bool)
    | Restart(order: seq<Id>)

  // ----- specification ----------------------------------------------------------------------

  /** The synchronous purge looks only at the worker the order is for. */
  function Own(c: Config, sub: Submit): Config {
    c.(workers := [sub.w])
  }

  predicate IsAccepted(c: Config, m: Memory, sub: Submit, order: seq<Id>) {
    Submitted(Own(c, sub), m, sub, order).1 == PendingReply
  }

  function MatchPopped(kv: Kv, peer: Peer, id: Id): Kv {
    if Row(kv.scheduled, peer.w) != [] && Row(kv.scheduled, peer.w)[0] == id
    then FirstDone(kv, peer.w, peer.identity, peer.enclave)
    else kv
  }

  function SyncSubmitted(c: Config, peer: Peer, m: Memory, sub: Submit, order: seq<Id>, delivered: bool): Memory {
    var m' := Submitted(Own(c, sub), m, sub, order).0;
    if IsAccepted(c, m, sub, order) && delivered then m'.(kv := MatchPopped(m'.kv, peer, sub.id)) else m'
  }

  function SyncStep(c: Config, peer: Peer, m: Memory, e: SyncEvent): Memory {
    match e
    case Posted(sub, order, delivered) => SyncSubmitted(c, peer, m, sub, order, delivered)
    case Restart(order) => Booted(c, m.kv, order)
  }

  /** Memory and tables after the requests of a run. */
  function SyncRun(c: Config, peer: Peer, m: Memory, es: seq<SyncEvent>): Memory {
    if es == [] then m
    else SyncStep(c, peer, SyncRun(c, peer, m, es[..|es| - 1]), es[|es| - 1])
  }

  /** Requests name known workers and lookups return what the table holds. */
  predicate Possible(c: Config, m: Memory, e: SyncEvent) {
    match e
    case Posted(sub, order, _) => sub.w in c.workers && Enumerates(order, m.kv.stamps)
    case Restart(order) => Enumerates(order, m.kv.stamps)
  }

  predicate PossibleRun(c: Config, peer: Peer, m: Memory, es: seq<SyncEvent>) {
    es != [] ==>
      PossibleRun(c, peer, m, es[..|es| - 1])
      && Possible(c, SyncRun(c, peer, m, es[..|es| - 1]), es[|es| - 1])
  }

  function Queue(m: Memory, peer: Peer): seq<Id> {
    Row(m.kv.scheduled, peer.w)
  }

  /** An accepted order for the manager's worker that never reached the manager. */
  predicate Undelivered(c: Config, peer: Peer, m: Memory, e: SyncEvent) {
    e.Posted? && e.sub.w == peer.w && IsAccepted(c, m, e.sub, e.order) && !e.delivered
  }

  predicate AllDelivered(c: Config, peer: Peer, m: Memory, es: seq<SyncEvent>) {
    es != [] ==>
      AllDelivered(c, peer, m, es[..|es| - 1])
      && !Undelivered(c, peer, SyncRun(c, peer, m, es[..|es| - 1]), es[|es| - 1])
  }

  // ----- what every request keeps --------------------------------------------------------------

  predicate InStamps(l: seq<Id>, stamps: set<Id>) {
    forall id :: id in l ==> id in stamps
  }

  predicate Apart(l: seq<Id>, k: seq<Id>) {
    forall id :: id in l ==> id !in k
  }

  /** Lists of configured workers hold stamped ids, an id is processed at most once, and no
      processed id is queued. */
  predicate ListsOk(kv: Kv, v: Worker, u: Worker) {
    && InStamps(Row(kv.scheduled, v), kv.stamps)
    && InStamps(Row(kv.processed, v), kv.stamps) && Distinct(Row(kv.processed, v))
    && Apart(Row(kv.processed, v), Row(kv.scheduled, u))
    && (v != u ==> Apart(Row(kv.processed, v), Row(kv.processed, u)))
  }

  ghost predicate SyncOk(c: Config, m: Memory) {
    forall v, u :: v in c.workers && u in c.workers ==> ListsOk(m.kv, v, u)
  }

  lemma RestartKeeps(c: Config, m: Memory, order: seq<Id>)
    requires SyncOk(c, m)
    ensures SyncOk(c, Booted(c, m.kv, order))
  {
    var kv := BootKv(c, m.kv);
    forall v, u | v in c.workers && u in c.workers ensures ListsOk(kv, v, u) {
      assert ListsOk(m.kv, v, u);
      assert forall id :: id in Row(kv.scheduled, v) ==> IsLive(c, m.kv, id);
      assert forall id :: id in Row(kv.processed, v) ==> IsLive(c, m.kv, id);
    }
  }

  lemma PurgeKeepsLists(kv: Kv, id: Id, w: Worker, v: Worker, u: Worker)
    requires ListsOk(kv, v, u) && ListsOk(kv, w, v) && ListsOk(kv, v, w) && ListsOk(kv, w, u)
    requires id in Row(kv.processed, w)
    ensures ListsOk(PurgeKv(kv, id, w, 5), v, u)
  {
    var l := Row(kv.processed, w);
    WithoutFacts(l, id);
    var kv' := PurgeKv(kv, id, w, 5);
    assert Row(kv'.processed, w) == Without(l, id);
    assert v != w ==> Row(kv'.processed, v) == Row(kv.processed, v);
    assert u != w ==> Row(kv'.processed, u) == Row(kv.processed, u);
  }

  lemma AppendKeepsLists(kv: Kv, sub: Submit, v: Worker, u: Worker)
    requires ListsOk(kv, v, u) && sub.id !in kv.stamps
    ensures ListsOk(SubmitKv(kv, sub, 3), v, u)
  {
  }

  lemma PopKeepsLists(kv: Kv, peer: Peer, v: Worker, u: Worker)
    requires ListsOk(kv, v, u) && ListsOk(kv, peer.w, v) && ListsOk(kv, v, peer.w) && ListsOk(kv, u, peer.w)
    requires ListsOk(kv, peer.w, peer.w)
    requires |Row(kv.scheduled, peer.w)| == 1 && Row(kv.scheduled, peer.w)[0] in kv.stamps
    requires u != peer.w ==> Row(kv.scheduled, peer.w)[0] !in Row(kv.scheduled, u)
    ensures ListsOk(FirstDone(kv, peer.w, peer.identity, peer.enclave), v, u)
  {
    FirstDoneLists(kv, peer.w, peer.identity, peer.enclave);
    var id := Row(kv.scheduled, peer.w)[0];
    assert id in Row(kv.scheduled, peer.w);
    assert id !in Row(kv.processed, v) && id !in Row(kv.processed, u) && id !in Row(kv.processed, peer.w);
  }

  lemma OwnProcessed(kv: Kv, w: Worker)
    ensures ProcessedBy(kv, [w]) == map id | id in Row(kv.processed, w) :: w
  {
    assert [w][..0] == [];
  }

  /** A submit first makes room, which only ever strikes off processed orders. */
  lemma RoomKeeps(c: Config, m: Memory, sub: Submit, order: seq<Id>)
    requires SyncOk(c, m) && sub.w in c.workers
    ensures var kv := PurgedKv(Own(c, sub), m, order);
            kv.scheduled == m.kv.scheduled && SyncOk(c, m.(kv := kv))
  {
    var own := Own(c, sub);
    OwnProcessed(m.kv, sub.w);
    var found := ProcessedBy(m.kv, own.workers);
    var pick := FirstAmong(order, found.Keys);
    if pick.Some? {
      forall v, u | v in c.workers && u in c.workers ensures ListsOk(PurgedKv(own, m, order), v, u) {
        assert ListsOk(m.kv, v, u) && ListsOk(m.kv, sub.w, v) && ListsOk(m.kv, v, sub.w) && ListsOk(m.kv, sub.w, u);
        PurgeKeepsLists(m.kv, pick.value, sub.w, v, u);
      }
    }
  }

  /** What a submit leaves before the id is handed over. */
  lemma SubmitKeeps(c: Config, m: Memory, sub: Submit, order: seq<Id>)
    requires SyncOk(c, m) && sub.w in c.workers
    ensures var m' := Submitted(Own(c, sub), m, sub, order).0;
            && SyncOk(c, m')
            && if !IsAccepted(c, m, sub, order) then m'.kv.scheduled == m.kv.scheduled
               else exists kv :: AcceptedFrom(kv, m, m', sub) && SyncOk(c, m.(kv := kv))
  {
    RoomKeeps(c, m, sub, order);
    var room, m' := MakeRoom(Own(c, sub), m, order), Submitted(Own(c, sub), m, sub, order).0;
    if room.Some? {
      var kv := room.value.kv;
      assert kv == m.kv || kv == PurgedKv(Own(c, sub), m, order);
      assert SyncOk(c, m.(kv := kv));
      if IsAccepted(c, m, sub, order) {
        assert AcceptedFrom(kv, m, m', sub);
        forall v, u | v in c.workers && u in c.workers ensures ListsOk(m'.kv, v, u) {
          assert ListsOk(m.(kv := kv).kv, v, u);
          AppendKeepsLists(kv, sub, v, u);
        }
      }
    }
  }

  ghost predicate AcceptedFrom(kv: Kv, m: Memory, m': Memory, sub: Submit) {
    kv.scheduled == m.kv.scheduled && sub.id !in kv.stamps && m'.kv == SubmitKv(kv, sub, 3)
  }

  /** How one request changes the manager's queue. */
  lemma RequestMovesQueue(c: Config, peer: Peer, m: Memory, sub: Submit, order: seq<Id>, delivered: bool)
    requires SyncOk(c, m) && sub.w in c.workers && peer.w in c.workers
    ensures var m', q := SyncSubmitted(c, peer, m, sub, order, delivered), Queue(m, peer);
            var grown := if IsAccepted(c, m, sub, order) && sub.w == peer.w then q + [sub.id] else q;
            && SyncOk(c, m')
            && Queue(m', peer) == if q == [] && delivered then [] else grown
  {
    SubmitKeeps(c, m, sub, order);
    if IsAccepted(c, m, sub, order) {
      var m1 := Submitted(Own(c, sub), m, sub, order).0;
      var kv :| AcceptedFrom(kv, m, m1, sub) && SyncOk(c, m.(kv := kv));
      assert ListsOk(m.(kv := kv).kv, peer.w, peer.w);
      assert Queue(m1, peer) == if sub.w == peer.w then Queue(m, peer) + [sub.id] else Queue(m, peer);
      assert sub.id !in Queue(m, peer);
      if delivered && sub.w == peer.w && Queue(m, peer) == [] {
        FirstDoneLists(m1.kv, peer.w, peer.identity, peer.enclave);
        forall v, u | v in c.workers && u in c.workers
          ensures ListsOk(MatchPopped(m1.kv, peer, sub.id), v, u)
        {
          assert ListsOk(m.(kv := kv).kv, u, u);
          assert ListsOk(m1.kv, v, u) && ListsOk(m1.kv, peer.w, v) && ListsOk(m1.kv, v, peer.w) && ListsOk(m1.kv, u, peer.w);
          assert ListsOk(m1.kv, peer.w, peer.w);
          PopKeepsLists(m1.kv, peer, v, u);
        }
      }
    }
  }

  // ----- which order is given up -----------------------------------------------------------------

  /** Rows and list entries of an id are as before. */
  ghost predicate SameOrder(kv: Kv, kv': Kv, x: Id) {
    && (x in kv'.stamps <==> x in kv.stamps) && (x in kv'.receipts <==> x in kv.receipts)
    && (x in kv'.requests <==> x in kv.requests) && (x in kv.requests ==> kv'.requests[x] == kv.requests[x])
    && (x in kv'.responses <==> x in kv.responses) && (x in kv.responses ==> kv'.responses[x] == kv.responses[x])
    && forall v :: (x in Row(kv'.processed, v) <==> x in Row(kv.processed, v))
                   && (x in Row(kv'.scheduled, v) <==> x in Row(kv.scheduled, v))
  }

  lemma PurgedOthers(kv: Kv, kv': Kv, id: Id, w: Worker, x: Id)
    requires OnlyPurged(kv, kv', id, w) && x != id
    ensures SameOrder(kv, kv', x)
  {
    var l, l' := Row(kv.processed, w), Row(kv'.processed, w);
    var n :| 0 <= n < |l| && StruckAt(l, l', id, n);
    assert l == l[..n] + [id] + l[n + 1..];
    assert x in l' <==> x in l;
  }

  lemma AddedOthers(kv: Kv, kv': Kv, sub: Submit, x: Id)
    requires OnlyAdded(kv, kv', sub) && x != sub.id
    ensures SameOrder(kv, kv', x)
  {
  }

  lemma PoppedOthers(kv: Kv, peer: Peer, id: Id, x: Id)
    requires x != id
    ensures SameOrder(kv, MatchPopped(kv, peer, id), x)
  {
    var q := Row(kv.scheduled, peer.w);
    if q != [] && q[0] == id {
      FirstDoneLists(kv, peer.w, peer.identity, peer.enclave);
      assert q == [q[0]] + q[1..];
    }
  }

  lemma SameOrderChain(kv: Kv, kv': Kv, kv'': Kv, x: Id)
    requires SameOrder(kv, kv', x) && SameOrder(kv', kv'', x)
    ensures SameOrder(kv, kv'', x)
  {
    forall v ensures (x in Row(kv''.processed, v) <==> x in Row(kv.processed, v))
                     && (x in Row(kv''.scheduled, v) <==> x in Row(kv.scheduled, v))
    {
      assert x in Row(kv'.processed, v) <==> x in Row(kv.processed, v);
      assert x in Row(kv'.scheduled, v) <==> x in Row(kv.scheduled, v);
    }
  }

  /** A submit to a full handler comes down to a purge of the first listed order and steps that
      touch the submitted order alone. */
  lemma FullSyncSteps(c: Config, peer: Peer, m: Memory, sub: Submit, order: seq<Id>, delivered: bool, k: nat)
    returns (kv: Kv)
    requires m.count + 1 > c.max && FirstListed(m.kv, [sub.w], order, k, 0)
    ensures OnlyPurged(m.kv, kv, order[k], sub.w)
    ensures forall x :: x != sub.id ==> SameOrder(kv, SyncSubmitted(c, peer, m, sub, order, delivered).kv, x)
  {
    var own, id := Own(c, sub), order[k];
    var m1 := Submitted(own, m, sub, order).0;
    FullSubmit(own, m, sub, order, k, 0);
    if IsAccepted(c, m, sub, order) {
      assert PurgedThenAdded(m, m1, id, sub.w, sub);
      kv :| OnlyPurged(m.kv, kv, id, sub.w) && OnlyAdded(kv, m1.kv, sub);
      forall x | x != sub.id ensures SameOrder(kv, SyncSubmitted(c, peer, m, sub, order, delivered).kv, x) {
        AddedOthers(kv, m1.kv, sub, x);
        PoppedOthers(m1.kv, peer, sub.id, x);
        SameOrderChain(kv, m1.kv, MatchPopped(m1.kv, peer, sub.id), x);
      }
    } else {
      kv := m1.kv;
    }
  }

  /** A full handler gives up the first order of the lookup that the order's own worker has
      processed: nothing of it is left, unless it is the order submitted, and every other order stays
      as it was. */
  lemma FullSyncSubmit(c: Config, peer: Peer, m: Memory, sub: Submit, order: seq<Id>, delivered: bool, k: nat, x: Id)
    requires m.count + 1 > c.max && FirstListed(m.kv, [sub.w], order, k, 0)
    ensures var kv', id := SyncSubmitted(c, peer, m, sub, order, delivered).kv, order[k];
            && (id != sub.id ==>
                  && id !in kv'.stamps && id !in kv'.requests && id !in kv'.responses && id !in kv'.receipts
                  && (Distinct(Row(m.kv.processed, sub.w)) ==> id !in Row(kv'.processed, sub.w)))
            && (x != id && x != sub.id ==> SameOrder(m.kv, kv', x))
  {
    var kv', id := SyncSubmitted(c, peer, m, sub, order, delivered).kv, order[k];
    var kv := FullSyncSteps(c, peer, m, sub, order, delivered, k);
    GivenUp(m.kv, kv, id, sub.w);
    assert id != sub.id ==> SameOrder(kv, kv', id);
    if x != id && x != sub.id {
      PurgedOthers(m.kv, kv, id, sub.w, x);
      SameOrderChain(m.kv, kv, kv', x);
    }
  }

  lemma GivenUp(kv: Kv, kv': Kv, id: Id, w: Worker)
    requires OnlyPurged(kv, kv', id, w)
    ensures Distinct(Row(kv.processed, w)) ==> id !in Row(kv'.processed, w)
  {
    var l, l' := Row(kv.processed, w), Row(kv'.processed, w);
    var n :| 0 <= n < |l| && StruckAt(l, l', id, n);
    if Distinct(l) {
      assert forall j :: n < j < |l| ==> l[j] != l[n];
      assert id !in l[n + 1..];
    }
  }

  // ----- the dichotomy --------------------------------------------------------------------------

  lemma {:induction false} RunKeeps(c: Config, peer: Peer, m: Memory, es: seq<SyncEvent>)
    requires SyncOk(c, m) && peer.w in c.workers && PossibleRun(c, peer, m, es)
    ensures SyncOk(c, SyncRun(c, peer, m, es))
  {
    if es != [] {
      var init, e := es[..|es| - 1], es[|es| - 1];
      RunKeeps(c, peer, m, init);
      var before := SyncRun(c, peer, m, init);
      match e
      case Posted(sub, order, delivered) => RequestMovesQueue(c, peer, before, sub, order, delivered);
      case Restart(order) => RestartKeeps(c, before, order);
    }
  }

  /** From an empty queue, the queue is empty at a request boundary exactly when every order
      accepted for the manager's worker so far reached the manager. */
  lemma {:induction false} EmptyIffDelivered(c: Config, peer: Peer, m: Memory, es: seq<SyncEvent>)
    requires SyncOk(c, m) && peer.w in c.workers && PossibleRun(c, peer, m, es)
    requires Queue(m, peer) == []
    ensures Queue(SyncRun(c, peer, m, es), peer) == [] <==> AllDelivered(c, peer, m, es)
  {
    if es != [] {
      var init, e := es[..|es| - 1], es[|es| - 1];
      EmptyIffDelivered(c, peer, m, init);
      RunKeeps(c, peer, m, init);
      var before := SyncRun(c, peer, m, init);
      match e
      case Posted(sub, order, delivered) => RequestMovesQueue(c, peer, before, sub, order, delivered);
      case Restart(_) =>
    }
  }

  /** Orders accepted for the manager's worker in a run, in order. */
  function AcceptedIds(c: Config, peer: Peer, m: Memory, es: seq<SyncEvent>): seq<Id> {
    if es == [] then []
    else
      var init, e := es[..|es| - 1], es[|es| - 1];
      AcceptedIds(c, peer, m, init)
      + if e.Posted? && e.sub.w == peer.w && IsAccepted(c, SyncRun(c, peer, m, init), e.sub, e.order)
        then [e.sub.id] else []
  }

  /** Once something is queued nothing is popped any more: every further accepted order, delivered
      or not, stays behind it. */
  lemma {:induction false} StuckQueueOnlyGrows(c: Config, peer: Peer, m: Memory, es: seq<SyncEvent>)
    requires SyncOk(c, m) && peer.w in c.workers && PossibleRun(c, peer, m, es)
    requires Queue(m, peer) != []
    ensures Queue(SyncRun(c, peer, m, es), peer) == Queue(m, peer) + AcceptedIds(c, peer, m, es)
  {
    if es != [] {
      var init, e := es[..|es| - 1], es[|es| - 1];
      StuckQueueOnlyGrows(c, peer, m, init);
      RunKeeps(c, peer, m, init);
      var before := SyncRun(c, peer, m, init);
      match e
      case Posted(sub, order, delivered) => RequestMovesQueue(c, peer, before, sub, order, delivered);
      case Restart(_) =>
    }
  }

  /** With an empty queue, an accepted and delivered order is popped and answered for its own
      request within the submit. */
  lemma DeliveredIsProcessed(c: Config, peer: Peer, m: Memory, sub: Submit, order: seq<Id>)
    requires SyncOk(c, m) && sub.w == peer.w && peer.w in c.workers && Queue(m, peer) == []
    requires IsAccepted(c, m, sub, order)
    ensures var kv := SyncSubmitted(c, peer, m, sub, order, true).kv;
            && sub.id in Row(kv.processed, peer.w) && Row(kv.scheduled, peer.w) == []
            && sub.id in kv.responses && kv.responses[sub.id].request == sub.request
            && (kv.responses[sub.id].failed <==> !sub.request.parses || peer.enclave(sub.request))
  {
    SubmitKeeps(c, m, sub, order);
    var m1 := Submitted(Own(c, sub), m, sub, order).0;
    var kv :| AcceptedFrom(kv, m, m1, sub);
    assert Queue(m1, peer) == [sub.id];
    FirstDoneLists(m1.kv, peer.w, peer.identity, peer.enclave);
  }

  lemma OneMoreEvent(c: Config, peer: Peer, m: Memory, es: seq<SyncEvent>, e: SyncEvent)
    ensures SyncRun(c, peer, m, es + [e]) == SyncStep(c, peer, SyncRun(c, peer, m, es), e)
    ensures PossibleRun(c, peer, m, es + [e])
            <==> PossibleRun(c, peer, m, es) && Possible(c, SyncRun(c, peer, m, es), e)
  {
    assert (es + [e])[..|es|] == es;
  }

  /** In every run from an empty queue in which hand-overs succeed, each order accepted for the
      manager's worker is popped and answered for its own request before the submit ends. */
  lemma AcceptedAreProcessed(c: Config, peer: Peer, m: Memory, es: seq<SyncEvent>, e: SyncEvent)
    requires SyncOk(c, m) && peer.w in c.workers && Queue(m, peer) == []
    requires PossibleRun(c, peer, m, es + [e]) && AllDelivered(c, peer, m, es + [e])
    requires e.Posted? && e.sub.w == peer.w && IsAccepted(c, SyncRun(c, peer, m, es), e.sub, e.order)
    ensures var kv := SyncRun(c, peer, m, es + [e]).kv;
            && e.sub.id in Row(kv.processed, peer.w) && Row(kv.scheduled, peer.w) == []
            && e.sub.id in kv.responses && kv.responses[e.sub.id].request == e.sub.request
            && (kv.responses[e.sub.id].failed <==> !e.sub.request.parses || peer.enclave(e.sub.request))
  {
    assert (es + [e])[..|es|] == es;
    OneMoreEvent(c, peer, m, es, e);
    EmptyIffDelivered(c, peer, m, es);
    RunKeeps(c, peer, m, es);
    DeliveredIsProcessed(c, peer, SyncRun(c, peer, m, es), e.sub, e.order);
  }

  /** One lost hand-over: an order accepted later and delivered is still never processed. */
  lemma LostHandoverBlocks(enclave: Enclave)
    ensures var w, a, b := Worker("w"), Id("a"), Id("b");
            var c, peer, m := Config([w], map[], 2), Peer(w, Identity("p"), enclave), Memory(NOTHING, [], 0);
            var r := Request("", true);
            var es := [Posted(Submit(a, w, r), [], false), Posted(Submit(b, w, r), [a], true)];
            && SyncOk(c, m) && PossibleRun(c, peer, m, es) && Queue(m, peer) == []
            && Queue(SyncRun(c, peer, m, es), peer) == [a, b]
            && b !in SyncRun(c, peer, m, es).kv.responses
  {
    var w, a, b := Worker("w"), Id("a"), Id("b");
    var c, peer, m := Config([w], map[], 2), Peer(w, Identity("p"), enclave), Memory(NOTHING, [], 0);
    var r := Request("", true);
    var e1, e2 := Posted(Submit(a, w, r), [], false), Posted(Submit(b, w, r), [a], true);
    assert "a"[0] != "b"[0];
    OneMoreEvent(c, peer, m, [], e1);
    OneMoreEvent(c, peer, m, [e1], e2);
    assert [] + [e1] == [e1] && [e1] + [e2] == [e1, e2];
    var m1 := SyncStep(c, peer, m, e1);
    PostedWithRoom(c, peer, m, e1);
    assert m1.kv.stamps == {a} && m1.kv.responses == map[] && m1.count == 1;
    assert Row(m1.kv.scheduled, w) == [a];
    PostedWithRoom(c, peer, m1, e2);
  }

  /** A new order for which there is room, handed over or behind another one. */
  lemma PostedWithRoom(c: Config, peer: Peer, m: Memory, e: SyncEvent)
    requires e.Posted? && e.sub.w == peer.w && m.count + 1 <= c.max && e.sub.id !in m.kv.stamps
    requires !e.delivered || (Queue(m, peer) != [] && Queue(m, peer)[0] != e.sub.id)
    ensures var m' := SyncStep(c, peer, m, e);
            && m'.kv.stamps == m.kv.stamps + {e.sub.id} && m'.kv.responses == m.kv.responses
            && Queue(m', peer) == Queue(m, peer) + [e.sub.id] && m'.count == m.count + 1
  {
    SubmitWithRoom(Own(c, e.sub), m, e.sub, e.order);
  }

  // ----- the handler -----------------------------------------------------------------------------

  datatype SyncReply = Processed(response: Response) | NoResponse | NotReached | Turned(reply: Reply)

  class SyncHandler {
    const c: Config
    const manager: Manager
    var list: seq<Id>
    var count: int

    ghost function Mem(): Memory
      reads this, manager
    {
      Memory(manager.kv, list, count)
    }

    ghost function Other(): Peer {
      Peer(manager.w, manager.identity, manager.enclave)
    }

    constructor (c: Config, manager: Manager)
      ensures this.c == c && this.manager == manager && list == [] && count == 0
    {
      this.c, this.manager, this.list, this.count := c, manager, [], 0;
    }

    /** Delete a processed order everywhere, its timestamp last. */
    method Purge(id: Id, w: Worker)
      modifies manager
      ensures manager.kv == PurgeKv(old(manager.kv), id, w, 5)
    {
      var kv := manager.kv;
      kv := kv.(processed := SetRow(kv.processed, w, Without(Row(kv.processed, w), id)));
      kv := kv.(requests := kv.requests - {id});
      kv := kv.(responses := kv.responses - {id});
      kv := kv.(receipts := kv.receipts - {id});
      manager.kv := kv.(stamps := kv.stamps - {id});
    }

    /** Timestamp, request and queue entry of a new order. */
    method Enqueue(sub: Submit)
      modifies manager
      ensures manager.kv == SubmitKv(old(manager.kv), sub, 3)
    {
      var kv := manager.kv;
      kv := kv.(stamps := kv.stamps + {sub.id});
      kv := kv.(requests := kv.requests[sub.id := sub.request]);
      manager.kv := kv.(scheduled := SetRow(kv.scheduled, sub.w, Row(kv.scheduled, sub.w) + [sub.id]));
    }

    /** Store and queue a new order, and hand it to the manager if that is reached. */
    method Accept(sub: Submit, delivered: bool)
      requires sub.id !in manager.kv.receipts
      modifies this, manager
      ensures list == old(list) + [sub.id] && count == old(count) + 1
      ensures var kv := SubmitKv(old(manager.kv), sub, 3);
              manager.kv == if delivered then MatchPopped(kv, Other(), sub.id) else kv
    {
      Enqueue(sub);
      list := list + [sub.id];
      count := count + 1;
      if delivered {
        assert !Blocked(manager.kv, manager.updates, manager.builds, sub.id);
        var done, raised := manager.ProcessSync(sub.id);
      }
    }

    /** Clear one order that `w` has processed; `ok` is false when the internal list lacks it. */
    method ClearOne(w: Worker, order: seq<Id>) returns (ok: bool)
      requires Enumerates(order, manager.kv.stamps) && count + 1 > c.max
      modifies this, manager
      ensures var own := c.(workers := [w]);
              && (ok <==> MakeRoom(own, old(Mem()), order).Some?)
              && RoomMade(own, old(Mem()), order, Mem(), ok)
              && Mem() == if ok then MakeRoom(own, old(Mem()), order).value
                          else old(Mem()).(kv := PurgedKv(own, old(Mem()), order))
    {
      MakeRoomMeaning(c.(workers := [w]), Mem(), order);
      var processed := Row(manager.kv.processed, w);
      ghost var own := c.(workers := [w]);
      ghost var found := ProcessedBy(manager.kv, own.workers);
      OwnProcessed(manager.kv, w);
      ok := true;
      var i := 0;
      while i < |order|
        invariant 0 <= i <= |order| && Mem() == old(Mem()) && ok
        invariant FirstAmong(order, found.Keys) == FirstAmong(order[i..], found.Keys)
      {
        var id := order[i];
        if id in processed {
          assert FirstAmong(order[i..], found.Keys) == Some(id);
          Purge(id, w);
          if id !in list {
            return false;
          }
          list := Without(list, id);
          count := count - 1;
          return;
        }
        assert order[i..][1..] == order[i + 1..];
        i := i + 1;
      }
    }

    /** Turn the order away, or have room for it. */
    method MakeSpace(w: Worker, order: seq<Id>) returns (turned: Option<Reply>)
      requires Enumerates(order, manager.kv.stamps) && manager.kv.receipts <= manager.kv.stamps
      modifies this, manager
      ensures manager.kv.receipts <= manager.kv.stamps
      ensures var own, m := c.(workers := [w]), old(Mem());
              match MakeRoom(own, m, order)
              case None => turned == Some(ExceptionReply) && Mem() == m.(kv := PurgedKv(own, m, order))
              case Some(n) => Mem() == n && turned == if n.count + 1 > c.max then Some(BusyReply) else None
    {
      if count + 1 > c.max {
        var ok := ClearOne(w, order);
        if !ok {
          return Some(ExceptionReply);
        }
        if count + 1 > c.max {
          return Some(BusyReply);
        }
      }
      return None;
    }

    /** Only timestamped ids have receipts, so the receipt of the new order never blocks the manager. */
    method WorkOrderSubmit(sub: Submit, order: seq<Id>, delivered: bool, replied: bool) returns (reply: SyncReply)
      requires Enumerates(order, manager.kv.stamps) && manager.kv.receipts <= manager.kv.stamps
      modifies this, manager
      ensures Mem() == SyncSubmitted(c, Other(), old(Mem()), sub, order, delivered)
      ensures manager.kv.receipts <= manager.kv.stamps
      ensures reply.Turned? <==> !IsAccepted(c, old(Mem()), sub, order)
      ensures reply.Turned? ==> reply.reply == Submitted(Own(c, sub), old(Mem()), sub, order).1
      ensures reply.NotReached? <==> IsAccepted(c, old(Mem()), sub, order) && !(delivered && replied)
      ensures reply.Processed? ==> sub.id in Mem().kv.responses && reply.response == Mem().kv.responses[sub.id]
      ensures reply.NoResponse? ==> sub.id !in Mem().kv.responses
    {
      var turned := MakeSpace(sub.w, order);
      if turned.Some? {
        return Turned(turned.value);
      }
      if sub.id in manager.kv.stamps {
        return Turned(ExistsReply);
      }
      Accept(sub, delivered);
      if !delivered || !replied {
        return NotReached;
      }
      return if sub.id in manager.kv.responses then Processed(manager.kv.responses[sub.id]) else NoResponse;
    }
  }
}
