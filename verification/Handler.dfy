/** The listener's work-order handler as the imperative code it is, on tables nobody else is
changing meanwhile.

The handler is proved against functions of its memory and the tables;
`HandlerRuns` shows that the step machine of `WorkOrders`, run without
interference, computes the same.
*/
module Handler {
  import opened Options
  import opened WorkOrders
  import opened Recovery

  // ----- specification ----------------------------------------------------------------------

  datatype Reply = PendingReply | BusyReply | ExistsReply | ExceptionReply

  /** The tables and the handler's own fields. */
  datatype Memory = Memory(kv: Kv, list: seq<Id>, count: int)

  /** Which worker lists an id as processed; a later worker wins. */
  function ProcessedBy(kv: Kv, workers: seq<Worker>): map<Id, Worker> {
    if workers == [] then map[]
    else
      var last := workers[|workers| - 1];
      ProcessedBy(kv, workers[..|workers| - 1]) + map id | id in Row(kv.processed, last) :: last
  }

  /** Make room if the handler is full: `None` when that raised an exception. */
  function MakeRoom(c: Config, m: Memory, order: seq<Id>): Option<Memory> {
    if m.count + 1 <= c.max then Some(m)
    else
      var found := ProcessedBy(m.kv, c.workers);
      var pick := FirstAmong(order, found.Keys);
      if pick.None? then Some(m)
      else if pick.value !in m.list then None
      else Some(Memory(PurgeKv(m.kv, pick.value, found[pick.value], 5), Without(m.list, pick.value), m.count - 1))
  }

  /** The tables after a purge whose list removal failed. */
  function PurgedKv(c: Config, m: Memory, order: seq<Id>): Kv {
    var found := ProcessedBy(m.kv, c.workers);
    var pick := FirstAmong(order, found.Keys);
    if pick.None? then m.kv else PurgeKv(m.kv, pick.value, found[pick.value], 5)
  }

  function Submitted(c: Config, m: Memory, sub: Submit, order: seq<Id>): (Memory, Reply) {
    var room := MakeRoom(c, m, order);
    if room.None? then (m.(kv := PurgedKv(c, m, order)), ExceptionReply)
    else
      var n := room.value;
      if n.count + 1 > c.max then (n, BusyReply)
      else if sub.id in n.kv.stamps then (n, ExistsReply)
      else (Memory(SubmitKv(n.kv, sub, 3), n.list + [sub.id], n.count + 1), PendingReply)
  }

  // ----- which order is given up --------------------------------------------------------------

  /** `order[k]` is the first id of the lookup that a worker's processed list has, and the `i`-th
      worker is the last whose list has it. */
  ghost predicate FirstListed(kv: Kv, workers: seq<Worker>, order: seq<Id>, k: nat, i: nat) {
    && k < |order| && i < |workers| && order[k] in Row(kv.processed, workers[i])
    && (forall n :: i < n < |workers| ==> order[k] !in Row(kv.processed, workers[n]))
    && forall j, n :: 0 <= j < k && 0 <= n < |workers| ==> order[j] !in Row(kv.processed, workers[n])
  }

  ghost predicate NoneListed(kv: Kv, workers: seq<Worker>, order: seq<Id>) {
    forall j, n :: 0 <= j < |order| && 0 <= n < |workers| ==> order[j] !in Row(kv.processed, workers[n])
  }

  /** `l'` is `l` without its first entry of `id`. */
  ghost predicate StruckOff(l: seq<Id>, l': seq<Id>, id: Id) {
    exists n :: 0 <= n < |l| && StruckAt(l, l', id, n)
  }

  predicate StruckAt(l: seq<Id>, l': seq<Id>, id: Id, n: nat)
    requires n < |l|
  {
    l[n] == id && id !in l[..n] && l' == l[..n] + l[n + 1..]
  }

  /** The rows of `id` and its entry in the list of `w` are gone, and nothing else changed. */
  ghost predicate OnlyPurged(kv: Kv, kv': Kv, id: Id, w: Worker) {
    && kv'.stamps == kv.stamps - {id} && kv'.requests == kv.requests - {id}
    && kv'.responses == kv.responses - {id} && kv'.receipts == kv.receipts - {id}
    && StruckOff(Row(kv.processed, w), Row(kv'.processed, w), id)
    && (forall v :: v != w ==> Row(kv'.processed, v) == Row(kv.processed, v))
    && kv'.scheduled == kv.scheduled && kv'.processing == kv.processing
  }

  lemma {:induction false} WithoutStrikes(l: seq<Id>, id: Id)
    requires id in l
    ensures StruckOff(l, Without(l, id), id)
  {
    if l[0] == id {
      assert StruckAt(l, l[1..], id, 0);
    } else {
      WithoutStrikes(l[1..], id);
      var n :| 0 <= n < |l[1..]| && StruckAt(l[1..], Without(l[1..], id), id, n);
      StruckBehind(l, Without(l[1..], id), id, n);
    }
  }

  lemma StruckBehind(l: seq<Id>, tail: seq<Id>, id: Id, n: nat)
    requires l != [] && l[0] != id && n < |l[1..]| && StruckAt(l[1..], tail, id, n)
    ensures StruckAt(l, [l[0]] + tail, id, n + 1)
  {
    assert l[..n + 1] == [l[0]] + l[1..][..n];
    assert l[n + 2..] == l[1..][n + 1..];
  }

  lemma PurgeIsOnly(kv: Kv, id: Id, w: Worker)
    requires id in Row(kv.processed, w)
    ensures OnlyPurged(kv, PurgeKv(kv, id, w, 5), id, w)
  {
    WithoutStrikes(Row(kv.processed, w), id);
  }

  /** The last worker whose list has an id. */
  lemma {:induction false} LastOwner(kv: Kv, workers: seq<Worker>, id: Id, i: nat)
    requires i < |workers| && id in Row(kv.processed, workers[i])
    requires forall n :: i < n < |workers| ==> id !in Row(kv.processed, workers[n])
    ensures id in ProcessedBy(kv, workers) && ProcessedBy(kv, workers)[id] == workers[i]
  {
    var init := workers[..|workers| - 1];
    if i < |init| {
      LastOwner(kv, init, id, i);
      assert id !in Row(kv.processed, workers[|workers| - 1]);
    }
  }

  lemma {:induction false} NoOwner(kv: Kv, workers: seq<Worker>, id: Id)
    requires forall n :: 0 <= n < |workers| ==> id !in Row(kv.processed, workers[n])
    ensures id !in ProcessedBy(kv, workers)
  {
    if workers != [] {
      NoOwner(kv, workers[..|workers| - 1], id);
      assert id !in Row(kv.processed, workers[|workers| - 1]);
    }
  }

  lemma {:induction false} FirstAmongExact(order: seq<Id>, keys: set<Id>, k: nat)
    requires k < |order| && order[k] in keys && forall j :: 0 <= j < k ==> order[j] !in keys
    ensures FirstAmong(order, keys) == Some(order[k])
  {
    if k > 0 {
      FirstAmongExact(order[1..], keys, k - 1);
    }
  }

  /** The pick is the first listed id, with the worker whose list it is struck off. */
  lemma PickIsFirst(kv: Kv, workers: seq<Worker>, order: seq<Id>, k: nat, i: nat)
    requires FirstListed(kv, workers, order, k, i)
    ensures var found := ProcessedBy(kv, workers);
            FirstAmong(order, found.Keys) == Some(order[k]) && order[k] in found && found[order[k]] == workers[i]
  {
    var found := ProcessedBy(kv, workers);
    LastOwner(kv, workers, order[k], i);
    forall j | 0 <= j < k ensures order[j] !in found.Keys {
      NoOwner(kv, workers, order[j]);
    }
    FirstAmongExact(order, found.Keys, k);
  }

  lemma NothingPicked(kv: Kv, workers: seq<Worker>, order: seq<Id>)
    requires NoneListed(kv, workers, order)
    ensures FirstAmong(order, ProcessedBy(kv, workers).Keys) == None
  {
    var found := ProcessedBy(kv, workers);
    forall j | 0 <= j < |order| ensures order[j] !in found.Keys {
      NoOwner(kv, workers, order[j]);
    }
  }

  /** Making room in a full handler removes the first listed id of the lookup and no other; without
      one it changes nothing. */
  ghost predicate RoomMade(c: Config, m: Memory, order: seq<Id>, m': Memory, ok: bool) {
    && (forall k: nat, i: nat :: FirstListed(m.kv, c.workers, order, k, i) ==>
          && OnlyPurged(m.kv, m'.kv, order[k], c.workers[i]) && (ok <==> order[k] in m.list)
          && (ok ==> StruckOff(m.list, m'.list, order[k]) && m'.count == m.count - 1)
          && (!ok ==> m'.list == m.list && m'.count == m.count))
    && (NoneListed(m.kv, c.workers, order) ==> ok && m' == m)
  }

  lemma MakeRoomMeaning(c: Config, m: Memory, order: seq<Id>)
    requires m.count + 1 > c.max
    ensures var room := MakeRoom(c, m, order);
            RoomMade(c, m, order, if room.Some? then room.value else m.(kv := PurgedKv(c, m, order)), room.Some?)
  {
    forall k: nat, i: nat | FirstListed(m.kv, c.workers, order, k, i)
      ensures FirstAmong(order, ProcessedBy(m.kv, c.workers).Keys) == Some(order[k])
      ensures order[k] in ProcessedBy(m.kv, c.workers) && ProcessedBy(m.kv, c.workers)[order[k]] == c.workers[i]
      ensures OnlyPurged(m.kv, PurgeKv(m.kv, order[k], c.workers[i], 5), order[k], c.workers[i])
      ensures order[k] in m.list ==> StruckOff(m.list, Without(m.list, order[k]), order[k])
    {
      PickIsFirst(m.kv, c.workers, order, k, i);
      PurgeIsOnly(m.kv, order[k], c.workers[i]);
      if order[k] in m.list {
        WithoutStrikes(m.list, order[k]);
      }
    }
    if NoneListed(m.kv, c.workers, order) {
      NothingPicked(m.kv, c.workers, order);
    }
  }

  /** The order is timestamped, stored and queued last for its worker, and nothing else changed. */
  ghost predicate OnlyAdded(kv: Kv, kv': Kv, sub: Submit) {
    && kv'.stamps == kv.stamps + {sub.id} && kv'.requests == kv.requests[sub.id := sub.request]
    && Row(kv'.scheduled, sub.w) == Row(kv.scheduled, sub.w) + [sub.id]
    && (forall v :: v != sub.w ==> Row(kv'.scheduled, v) == Row(kv.scheduled, v))
    && kv'.responses == kv.responses && kv'.receipts == kv.receipts
    && kv'.processed == kv.processed && kv'.processing == kv.processing
  }

  lemma SubmitIsOnly(kv: Kv, sub: Submit)
    ensures OnlyAdded(kv, SubmitKv(kv, sub, 3), sub)
  {
  }

  /** While there is room a submit removes nothing: a known id is refused, a new one added. */
  lemma SubmitWithRoom(c: Config, m: Memory, sub: Submit, order: seq<Id>)
    requires m.count + 1 <= c.max
    ensures var (m', reply) := Submitted(c, m, sub, order);
            if sub.id in m.kv.stamps then m' == m && reply == ExistsReply
            else
              && OnlyAdded(m.kv, m'.kv, sub) && m'.list == m.list + [sub.id] && m'.count == m.count + 1
              && reply == PendingReply
  {
    SubmitIsOnly(m.kv, sub);
  }

  /** A full handler with no processed order turns a submit away and changes nothing. */
  lemma SubmitWithoutRoom(c: Config, m: Memory, sub: Submit, order: seq<Id>)
    requires m.count + 1 > c.max && NoneListed(m.kv, c.workers, order)
    ensures Submitted(c, m, sub, order) == (m, BusyReply)
  {
    MakeRoomMeaning(c, m, order);
  }

  ghost predicate PurgedThenAdded(m: Memory, m': Memory, id: Id, w: Worker, sub: Submit) {
    && (exists kv :: OnlyPurged(m.kv, kv, id, w) && OnlyAdded(kv, m'.kv, sub))
    && (exists l :: StruckOff(m.list, l, id) && m'.list == l + [sub.id])
    && m'.count == m.count
  }

  ghost predicate PurgedAlone(m: Memory, m': Memory, id: Id, w: Worker) {
    OnlyPurged(m.kv, m'.kv, id, w) && StruckOff(m.list, m'.list, id) && m'.count == m.count - 1
  }

  /** A full handler gives up the first processed order of the lookup, and no other, for any submit;
      then it accepts the new order, or says exactly why not. */
  lemma FullSubmit(c: Config, m: Memory, sub: Submit, order: seq<Id>, k: nat, i: nat)
    requires m.count + 1 > c.max && FirstListed(m.kv, c.workers, order, k, i)
    ensures var (m', reply) := Submitted(c, m, sub, order);
            var id, w := order[k], c.workers[i];
            if id !in m.list then
              OnlyPurged(m.kv, m'.kv, id, w) && m'.list == m.list && m'.count == m.count && reply == ExceptionReply
            else if m.count > c.max then PurgedAlone(m, m', id, w) && reply == BusyReply
            else if sub.id != id && sub.id in m.kv.stamps then PurgedAlone(m, m', id, w) && reply == ExistsReply
            else PurgedThenAdded(m, m', id, w, sub) && reply == PendingReply
  {
    var room, id, w := MakeRoom(c, m, order), order[k], c.workers[i];
    FullRoom(c, m, order, k, i);
    SubmitAfterRoom(c, m, sub, order);
    if room.Some? {
      var n := room.value;
      assert n.count == m.count - 1 && n.kv.stamps == m.kv.stamps - {id};
      if n.count + 1 <= c.max && sub.id !in n.kv.stamps {
        SubmitIsOnly(n.kv, sub);
        AddedAfterPurge(m, n, Memory(SubmitKv(n.kv, sub, 3), n.list + [sub.id], n.count + 1), id, w, sub);
      }
    }
  }

  lemma SubmitAfterRoom(c: Config, m: Memory, sub: Submit, order: seq<Id>)
    ensures match MakeRoom(c, m, order)
            case None => Submitted(c, m, sub, order) == (m.(kv := PurgedKv(c, m, order)), ExceptionReply)
            case Some(n) =>
              && (n.count + 1 > c.max ==> Submitted(c, m, sub, order) == (n, BusyReply))
              && (n.count + 1 <= c.max && sub.id in n.kv.stamps ==> Submitted(c, m, sub, order) == (n, ExistsReply))
              && (n.count + 1 <= c.max && sub.id !in n.kv.stamps ==>
                    Submitted(c, m, sub, order) ==
                    (Memory(SubmitKv(n.kv, sub, 3), n.list + [sub.id], n.count + 1), PendingReply))
  {
  }

  lemma AddedAfterPurge(m: Memory, n: Memory, m': Memory, id: Id, w: Worker, sub: Submit)
    requires PurgedAlone(m, n, id, w) && OnlyAdded(n.kv, m'.kv, sub)
    requires m'.list == n.list + [sub.id] && m'.count == n.count + 1
    ensures PurgedThenAdded(m, m', id, w, sub)
  {
  }

  lemma FullRoom(c: Config, m: Memory, order: seq<Id>, k: nat, i: nat)
    requires m.count + 1 > c.max && FirstListed(m.kv, c.workers, order, k, i)
    ensures var room, id, w := MakeRoom(c, m, order), order[k], c.workers[i];
            && (room.Some? <==> id in m.list)
            && if room.Some? then PurgedAlone(m, room.value, id, w) else OnlyPurged(m.kv, PurgedKv(c, m, order), id, w)
  {
    MakeRoomMeaning(c, m, order);
  }

  function KeptInOrder(order: seq<Id>, keep: set<Id>): seq<Id> {
    if order == [] then []
    else
      var last := order[|order| - 1];
      KeptInOrder(order[..|order| - 1], keep) + if last in keep then [last] else []
  }

  function Booted(c: Config, kv: Kv, order: seq<Id>): Memory {
    var list := KeptInOrder(order, Live(c, kv));
    Memory(BootKv(c, kv), list, |list|)
  }

  // ----- the handler --------------------------------------------------------------------------

  class WorkOrderHandler {
    const c: Config
    var kv: Kv
    var list: seq<Id>
    var count: int

    ghost function Mem(): Memory
      reads this
    {
      Memory(kv, list, count)
    }

    constructor (c: Config, kv: Kv)
      ensures this.c == c && Mem() == Memory(kv, [], 0)
    {
      this.c, this.kv, this.list, this.count := c, kv, [], 0;
    }

    /** Ids that a scheduled, processed or processing entry names. */
    method CollectLive() returns (pending: set<Id>, processed: set<Id>, processing: set<Id>)
      ensures forall id :: id in pending + processed + processing <==> IsLive(c, kv, id)
    {
      pending, processed, processing := {}, {}, {};
      var i := 0;
      while i < |c.workers|
        invariant 0 <= i <= |c.workers|
        invariant forall id :: id in pending <==> exists j :: 0 <= j < i && id in Row(kv.scheduled, c.workers[j])
        invariant forall id :: id in processed <==> exists j :: 0 <= j < i && id in Row(kv.processed, c.workers[j])
      {
        var w := c.workers[i];
        pending := pending + set id | id in Row(kv.scheduled, w);
        processed := processed + set id | id in Row(kv.processed, w);
        i := i + 1;
      }
      processing := set p | p in c.home && p in kv.processing :: kv.processing[p];
    }

    /** Remove every row of an id, its timestamp last. */
    method DropOrder(id: Id)
      modifies this`kv
      ensures kv == Dropped(old(kv), {id})
    {
      if id in kv.requests {
        kv := kv.(requests := kv.requests - {id});
      }
      if id in kv.responses {
        kv := kv.(responses := kv.responses - {id});
      }
      if id in kv.receipts {
        kv := kv.(receipts := kv.receipts - {id});
      }
      kv := kv.(stamps := kv.stamps - {id});
    }

    /** Boot: drop what no list names, count the rest. */
    method OnBoot(order: seq<Id>)
      requires Enumerates(order, kv.stamps) && list == [] && count == 0
      modifies this
      ensures Mem() == Booted(c, old(kv), order)
    {
      ghost var keep := Live(c, kv);
      var pending, processed, processing := CollectLive();
      assert forall i :: 0 <= i < |order| ==> (order[i] in keep <==> order[i] in pending + processed + processing);
      NothingDead(kv, keep);
      var i := 0;
      while i < |order|
        invariant 0 <= i <= |order|
        invariant list == KeptInOrder(order[..i], keep) && count == |list|
        invariant kv == Dropped(old(kv), Dead(order[..i], keep))
      {
        var id := order[i];
        OneMore(old(kv), order, i, keep);
        if id !in pending && id !in processed && id !in processing {
          DropOrder(id);
        } else {
          list := list + [id];
          count := count + 1;
        }
        i := i + 1;
      }
      assert order[..|order|] == order;
      AllDead(c, old(kv), order);
    }

    /** Which worker lists each processed id. */
    method CollectProcessed() returns (found: map<Id, Worker>)
      ensures found == ProcessedBy(kv, c.workers)
    {
      found := map[];
      var i := 0;
      while i < |c.workers|
        invariant 0 <= i <= |c.workers| && found == ProcessedBy(kv, c.workers[..i])
      {
        var w := c.workers[i];
        assert c.workers[..i + 1][..i] == c.workers[..i];
        found := found + map id | id in Row(kv.processed, w) :: w;
        i := i + 1;
      }
      assert c.workers[..|c.workers|] == c.workers;
    }

    /** Delete a processed order everywhere, its timestamp last. */
    method Purge(id: Id, w: Worker)
      modifies this`kv
      ensures kv == PurgeKv(old(kv), id, w, 5)
      ensures id !in kv.stamps && id !in kv.requests && id !in kv.responses && id !in kv.receipts
      ensures forall x :: x != id ==> (x in kv.stamps <==> x in old(kv).stamps)
                                      && (x in kv.responses <==> x in old(kv).responses)
      ensures forall v :: v != w ==> Row(kv.processed, v) == Row(old(kv).processed, v)
    {
      kv := kv.(processed := SetRow(kv.processed, w, Without(Row(kv.processed, w), id)));
      kv := kv.(requests := kv.requests - {id});
      kv := kv.(responses := kv.responses - {id});
      kv := kv.(receipts := kv.receipts - {id});
      kv := kv.(stamps := kv.stamps - {id});
    }

    /** Clear one processed entry when full; `ok` is false when the internal list lacks it. */
    method ClearOne(order: seq<Id>) returns (ok: bool)
      requires Enumerates(order, kv.stamps) && count + 1 > c.max
      modifies this
      ensures ok <==> MakeRoom(c, old(Mem()), order).Some?
      ensures ok ==> Mem() == MakeRoom(c, old(Mem()), order).value
      ensures !ok ==> Mem() == old(Mem()).(kv := PurgedKv(c, old(Mem()), order))
      ensures RoomMade(c, old(Mem()), order, Mem(), ok)
    {
      MakeRoomMeaning(c, Mem(), order);
      var found := CollectProcessed();
      ok := true;
      var i := 0;
      while i < |order|
        invariant 0 <= i <= |order| && Mem() == old(Mem()) && ok
        invariant FirstAmong(order, found.Keys) == FirstAmong(order[i..], found.Keys)
      {
        var id := order[i];
        if id in found {
          Purge(id, found[id]);
          if id !in list {
            return false;
          }
          list := Without(list, id);
          count := count - 1;
          return;
        }
        assert order[i..][1..] == order[i + 1..];
        i := i + 1;
      }
    }

    method WorkOrderSubmit(sub: Submit, order: seq<Id>) returns (reply: Reply)
      requires Enumerates(order, kv.stamps)
      modifies this
      ensures (Mem(), reply) == Submitted(c, old(Mem()), sub, order)
    {
      if count + 1 > c.max {
        var ok := ClearOne(order);
        if !ok {
          return ExceptionReply;
        }
        if count + 1 > c.max {
          return BusyReply;
        }
      }
      if sub.id !in kv.stamps {
        kv := kv.(stamps := kv.stamps + {sub.id});
        kv := kv.(requests := kv.requests[sub.id := sub.request]);
        kv := kv.(scheduled := SetRow(kv.scheduled, sub.w, Row(kv.scheduled, sub.w) + [sub.id]));
        list := list + [sub.id];
        count := count + 1;
        return PendingReply;
      }
      return ExistsReply;
    }

    method WorkOrderGetResult(id: Id) returns (answer: Answer, response: Option<Response>)
      ensures answer == Answered <==> id in kv.responses
      ensures answer == Answered ==> response == Some(kv.responses[id])
      ensures answer != Answered ==> response == None && (answer == Pending <==> id in kv.stamps)
    {
      if id !in kv.responses {
        return if id in kv.stamps then Pending else Unknown, None;
      }
      return Answered, Some(kv.responses[id]);
    }
  }

  function Dead(order: seq<Id>, keep: set<Id>): set<Id> {
    set id | id in order && id !in keep
  }

  lemma NothingDead(kv: Kv, keep: set<Id>)
    ensures Dropped(kv, Dead([], keep)) == kv
  {
    assert Dead([], keep) == {};
    assert kv.requests - {} == kv.requests && kv.responses - {} == kv.responses;
  }

  /** One more id of the lookup dealt with. */
  lemma OneMore(kv: Kv, order: seq<Id>, i: nat, keep: set<Id>)
    requires i < |order|
    ensures var done, id := order[..i], order[i];
            && KeptInOrder(order[..i + 1], keep) == KeptInOrder(done, keep) + (if id in keep then [id] else [])
            && Dropped(kv, Dead(order[..i + 1], keep)) ==
                 if id in keep then Dropped(kv, Dead(done, keep)) else Dropped(Dropped(kv, Dead(done, keep)), {id})
  {
    var done, id := order[..i], order[i];
    assert order[..i + 1] == done + [id];
    var dead := Dead(done, keep);
    assert Dead(order[..i + 1], keep) == if id in keep then dead else dead + {id};
    assert kv.requests - dead - {id} == kv.requests - (dead + {id});
    assert kv.responses - dead - {id} == kv.responses - (dead + {id});
    assert kv.receipts - dead - {id} == kv.receipts - (dead + {id});
    assert kv.stamps - dead - {id} == kv.stamps - (dead + {id});
  }

  lemma AllDead(c: Config, kv: Kv, order: seq<Id>)
    requires Enumerates(order, kv.stamps)
    ensures Dropped(kv, Dead(order, Live(c, kv))) == BootKv(c, kv)
  {
    assert Dead(order, Live(c, kv)) == kv.stamps - Live(c, kv);
  }

  lemma {:induction false} KeptExact(order: seq<Id>, keep: set<Id>)
    ensures Distinct(order) ==> Distinct(KeptInOrder(order, keep))
    ensures forall id :: id in KeptInOrder(order, keep) <==> id in order && id in keep
  {
    if order != [] {
      var n := |order| - 1;
      assert order == order[..n] + [order[n]];
      KeptExact(order[..n], keep);
      assert Distinct(order) ==> order[n] !in order[..n];
    }
  }

  /** A boot removes the rows of exactly the timestamped ids that nothing names, and touches no list. */
  lemma BootMeaning(c: Config, kv: Kv, order: seq<Id>, id: Id)
    requires Enumerates(order, kv.stamps)
    ensures var kv' := Booted(c, kv, order).kv;
            && kv'.scheduled == kv.scheduled && kv'.processed == kv.processed && kv'.processing == kv.processing
            && if id in kv.stamps && !IsLive(c, kv, id)
               then id !in kv'.stamps && id !in kv'.requests && id !in kv'.responses && id !in kv'.receipts
               else
                 && (id in kv'.stamps <==> id in kv.stamps) && (id in kv'.receipts <==> id in kv.receipts)
                 && (id in kv'.requests <==> id in kv.requests)
                 && (id in kv.requests ==> kv'.requests[id] == kv.requests[id])
                 && (id in kv'.responses <==> id in kv.responses)
                 && (id in kv.responses ==> kv'.responses[id] == kv.responses[id])
  {
  }

  predicate Precedes(order: seq<Id>, x: Id, y: Id) {
    exists a, b :: 0 <= a < b < |order| && order[a] == x && order[b] == y
  }

  /** The internal list is in lookup order. */
  lemma {:induction false} KeptPrecedes(order: seq<Id>, keep: set<Id>, i: nat, j: nat)
    requires i < j < |KeptInOrder(order, keep)|
    ensures Precedes(order, KeptInOrder(order, keep)[i], KeptInOrder(order, keep)[j])
  {
    var n := |order| - 1;
    var init := KeptInOrder(order[..n], keep);
    if j < |init| {
      KeptPrecedes(order[..n], keep, i, j);
      var a, b :| 0 <= a < b < |order[..n]| && order[..n][a] == init[i] && order[..n][b] == init[j];
      assert order[a] == init[i] && order[b] == init[j];
    } else {
      KeptExact(order[..n], keep);
      assert init[i] in order[..n];
      var a :| 0 <= a < |order[..n]| && order[..n][a] == init[i];
      assert order[a] == init[i] && order[n] == KeptInOrder(order, keep)[j];
    }
  }

  /** After a boot the internal list holds exactly the timestamped ids, each once and in lookup order,
      and some queue, processing entry or processed list names each of them. */
  lemma BootedListExact(c: Config, kv: Kv, order: seq<Id>)
    requires Enumerates(order, kv.stamps)
    ensures var m := Booted(c, kv, order);
            && Enumerates(m.list, m.kv.stamps) && m.count == |m.list|
            && (forall id :: id in m.list ==> IsLive(c, m.kv, id))
            && forall i, j :: 0 <= i < j < |m.list| ==> Precedes(order, m.list[i], m.list[j])
  {
    KeptExact(order, Live(c, kv));
    LiveAgrees(c, kv, BootKv(c, kv));
    assert BootKv(c, kv).stamps == Live(c, kv);
    var list := KeptInOrder(order, Live(c, kv));
    forall i | 0 <= i < |list| ensures list[i] in BootKv(c, kv).stamps {
      assert list[i] in list;
    }
    forall i, j | 0 <= i < j < |list| ensures Precedes(order, list[i], list[j]) {
      KeptPrecedes(order, Live(c, kv), i, j);
    }
  }
}
