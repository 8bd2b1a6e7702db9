/** The work-order protocol between the listener and the enclave managers.

One listener and any number of processors share the work-order tables.  Every
action below performs one key-value operation (reads of the boot scan, during
which no processor moves, are taken together).  The listener may crash between
any two operations and boot again.

`log` records what the operations meant for each id, and `phase` is where that
log puts the id; neither influences what the protocol does.
*/
module WorkOrders {
  import opened Options

  datatype Id = Id(text: string)
  datatype Worker = Worker(text: string)
  datatype Identity = Identity(text: string)

  /** A submitted request; `parses` says whether its text is JSON. */
  datatype Request = Request(body: string, parses: bool)

  datatype Response = Response(request: Request, failed: bool)

  /** `workers` are the keys of worker-pool in lookup order, `home` the pool of each processor. */
  datatype Config = Config(workers: seq<Worker>, home: map<Identity, Worker>, max: int) {
    predicate Valid() {
      forall p :: p in home ==> home[p] in workers
    }
  }

  datatype Kv = Kv(
    stamps: set<Id>,                       // wo-timestamps
    requests: map<Id, Request>,            // wo-requests
    responses: map<Id, Response>,          // wo-responses
    receipts: set<Id>,                     // wo-receipts
    scheduled: map<Worker, seq<Id>>,       // wo-worker-scheduled
    processing: map<Identity, Id>,         // wo-worker-processing
    processed: map<Worker, seq<Id>>)       // wo-worker-processed

  /** A csv row; a missing key is the empty list. */
  function Row(table: map<Worker, seq<Id>>, w: Worker): seq<Id> {
    if w in table then table[w] else []
  }

  function SetRow(table: map<Worker, seq<Id>>, w: Worker, l: seq<Id>): map<Worker, seq<Id>> {
    if l == [] then table - {w} else table[w := l]
  }

  /** `l` without its first occurrence of `id`. */
  function Without(l: seq<Id>, id: Id): seq<Id> {
    if l == [] then [] else if l[0] == id then l[1..] else [l[0]] + Without(l[1..], id)
  }

  predicate Distinct(l: seq<Id>) {
    forall i, j :: 0 <= i < j < |l| ==> l[i] != l[j]
  }

  /** A table lookup returns every key once. */
  predicate Enumerates(order: seq<Id>, keys: set<Id>) {
    Distinct(order) && (forall i :: 0 <= i < |order| ==> order[i] in keys) && (forall id :: id in keys ==> id in order)
  }

  /** The earliest id of `order` among `keys`. */
  function FirstAmong(order: seq<Id>, keys: set<Id>): (r: Option<Id>)
    ensures r.Some? ==> r.value in order && r.value in keys
    ensures r.None? ==> forall id :: id in order ==> id !in keys
  {
    if order == [] then None
    else if order[0] in keys then Some(order[0])
    else FirstAmong(order[1..], keys)
  }

  // ----- the life of an id ------------------------------------------------------

  datatype Answer = Unknown | Pending | Answered

  datatype Event =
    | Accept(id: Id)                               // timestamp written
    | Enqueue(id: Id, w: Worker)                   // appended to a scheduled list
    | Take(id: Id, p: Identity, w: Worker)         // popped by a processor
    | Execute(id: Id, p: Identity)                 // run in the enclave
    | Respond(id: Id, p: Identity)                 // response written
    | Record(id: Id, p: Identity, w: Worker)       // appended to a processed list
    | Strike(id: Id, w: Worker)                    // deleted from a processed list by a purge
    | Erase(id: Id)                                // response removed, by a purge or a boot
    | Remove(id: Id)                               // timestamp removed, by a purge or a boot
    | Busy(id: Id)                                 // submit turned away
    | Refuse(id: Id)                               // submit of a known id
    | Report(id: Id, answer: Answer)               // reply of WorkOrderGetResult
    | Lost(id: Id, p: Identity)                    // popped id without a stored request

  datatype Phase =
    | Absent
    | Accepted
    | Scheduled(w: Worker)
    | Held(p: Identity)
    | Executed(p: Identity)
    | Replied(p: Identity)
    | Recorded(w: Worker)
    | Struck
    | Erased
    | Illegal

  function NextPhase(ph: Phase, e: Event): Phase {
    match e
    case Accept(_) => if ph.Absent? then Accepted else Illegal
    case Enqueue(_, w) => if ph.Accepted? then Scheduled(w) else Illegal
    case Take(_, p, w) => if ph == Scheduled(w) then Held(p) else Illegal
    case Execute(_, p) => if ph == Held(p) then Executed(p) else Illegal
    case Respond(_, p) => if ph == Held(p) || ph == Executed(p) then Replied(p) else Illegal
    case Record(_, p, w) => if ph == Replied(p) then Recorded(w) else Illegal
    case Strike(_, w) => if ph == Recorded(w) then Struck else Illegal
    case Erase(_) => if ph.Accepted? then Accepted else if ph.Struck? || ph.Erased? then Erased else Illegal
    case Remove(_) => if ph.Accepted? || ph.Erased? then Absent else Illegal
    case Lost(_, _) => Illegal
    case _ => ph
  }

  /** Where the events of a log leave `id`. */
  function PhaseOf(log: seq<Event>, id: Id): Phase {
    if log == [] then Absent
    else
      var e, before := log[|log| - 1], PhaseOf(log[..|log| - 1], id);
      if e.id == id then NextPhase(before, e) else before
  }

  // ----- listener and processors -------------------------------------------------

  datatype Submit = Submit(id: Id, w: Worker, request: Request)

  datatype Job =
    | Idle
    | Scan(sub: Submit, todo: seq<Worker>, found: map<Id, Worker>)
    | ReadStamps(sub: Submit, found: map<Id, Worker>)
    | StrikeOff(sub: Submit, victim: Id, owner: Worker)
    | DropRequest(sub: Submit, victim: Id)
    | DropResponse(sub: Submit, victim: Id)
    | DropReceipt(sub: Submit, victim: Id)
    | DropStamp(sub: Submit, victim: Id)
    | CheckStamp(sub: Submit)
    | PutStamp(sub: Submit)
    | PutRequest(sub: Submit)
    | Append(sub: Submit)
    | AskResponse(id: Id)
    | AskStamp(id: Id)
    | FindRequest(id: Id)
    | FindReceipt(id: Id)
    | PutReceipt(id: Id)

  datatype BootStage = Requests | Responses | Receipts | Stamps

  datatype Listener =
    | Down
    | Booting(todo: seq<Id>, keep: set<Id>, list: seq<Id>, stage: BootStage)
    | Up(list: seq<Id>, count: int, job: Job)

  datatype Proc =
    | Resting
    | Popped(id: Id)
    | Fetched(id: Id, request: Request)
    | Marked(id: Id, request: Request)
    | Rejected(id: Id, request: Request)
    | Ran(id: Id, request: Request, failed: bool)
    | Stored(id: Id)
    | Listed(id: Id)

  datatype State = State(
    kv: Kv, listener: Listener, procs: map<Identity, Proc>,
    phase: map<Id, Phase>, log: seq<Event>)

  function ProcOf(s: State, p: Identity): Proc {
    if p in s.procs then s.procs[p] else Resting
  }

  function Ph(s: State, id: Id): Phase {
    if id in s.phase then s.phase[id] else Absent
  }

  function Emit(s: State, e: Event): State {
    s.(log := s.log + [e], phase := s.phase[e.id := NextPhase(Ph(s, e.id), e)])
  }

  const NOTHING := Kv({}, map[], map[], {}, map[], map[], map[])

  function Initial(): State {
    State(NOTHING, Down, map[], map[], [])
  }

  datatype Ask = AskSubmit(sub: Submit) | AskResult(id: Id) | AskReceipt(id: Id)

  datatype Action =
    | Crash
    | StartBoot(order: seq<Id>)
    | StepBoot
    | Receive(ask: Ask)
    | StepJob(order: seq<Id>, ok: bool)
    | StepProc(p: Identity, failed: bool)

  /** Not between popping an id and marking it as being processed. */
  predicate Settled(s: State, p: Identity) {
    var pc := ProcOf(s, p);
    pc.Resting? || pc.Listed? || p in s.kv.processing
  }

  /** Ids some scheduled, processed or processing entry names. */
  predicate IsLive(c: Config, kv: Kv, id: Id) {
    || (exists w :: w in c.workers && id in Row(kv.scheduled, w))
    || (exists w :: w in c.workers && id in Row(kv.processed, w))
    || (exists p :: p in c.home && p in kv.processing && kv.processing[p] == id)
  }

  predicate Enabled(c: Config, s: State, a: Action) {
    match a
    case Crash => true
    case StartBoot(order) =>
      && s.listener.Down? && Enumerates(order, s.kv.stamps)
      && forall p :: p in c.home ==> Settled(s, p)
    case StepBoot => s.listener.Booting?
    case Receive(ask) =>
      && s.listener.Up? && s.listener.job.Idle?
      && (ask.AskSubmit? ==> ask.sub.w in c.workers)
    case StepJob(order, _) =>
      && s.listener.Up? && !s.listener.job.Idle?
      && (s.listener.job.ReadStamps? ==> Enumerates(order, s.kv.stamps))
    case StepProc(p, _) =>
      && p in c.home && !s.listener.Booting?
      && (ProcOf(s, p).Resting? ==> Row(s.kv.scheduled, c.home[p]) != [])
  }

  function Apply(c: Config, s: State, a: Action): State
    requires Enabled(c, s, a)
  {
    match a
    case Crash => s.(listener := Down)
    case StartBoot(order) =>
      s.(listener := Booting(order, set id | id in s.kv.stamps && IsLive(c, s.kv, id), [], Requests))
    case StepBoot => BootStep(s)
    case Receive(ask) => Begin(c, s, ask)
    case StepJob(order, ok) => JobStep(c, s, order, ok)
    case StepProc(p, failed) => ProcStep(s, p, c.home[p], failed)
  }

  // ----- boot ----------------------------------------------------------------------

  function BootStep(s: State): State
    requires s.listener.Booting?
  {
    var b := s.listener;
    if b.todo == [] then s.(listener := Up(b.list, |b.list|, Idle))
    else
      var id := b.todo[0];
      if id in b.keep then s.(listener := b.(todo := b.todo[1..], list := b.list + [id]))
      else match b.stage
        case Requests =>
          s.(kv := s.kv.(requests := s.kv.requests - {id}), listener := b.(stage := Responses))
        case Responses =>
          Emit(s.(kv := s.kv.(responses := s.kv.responses - {id}), listener := b.(stage := Receipts)), Erase(id))
        case Receipts =>
          s.(kv := s.kv.(receipts := s.kv.receipts - {id}), listener := b.(stage := Stamps))
        case Stamps =>
          Emit(s.(kv := s.kv.(stamps := s.kv.stamps - {id}),
                  listener := b.(todo := b.todo[1..], stage := Requests)), Remove(id))
  }

  // ----- listener requests -----------------------------------------------------------

  function Begin(c: Config, s: State, ask: Ask): State
    requires s.listener.Up?
  {
    var l := s.listener;
    match ask
    case AskSubmit(sub) =>
      s.(listener := l.(job := if l.count + 1 > c.max then Scan(sub, c.workers, map[]) else CheckStamp(sub)))
    case AskResult(id) => s.(listener := l.(job := AskResponse(id)))
    case AskReceipt(id) => s.(listener := l.(job := FindRequest(id)))
  }

  function Goto(s: State, job: Job): State
    requires s.listener.Up?
  {
    s.(listener := s.listener.(job := job))
  }

  predicate InPurge(job: Job) {
    job.Scan? || job.ReadStamps? || job.StrikeOff?
    || job.DropRequest? || job.DropResponse? || job.DropReceipt? || job.DropStamp?
  }

  predicate InSubmit(job: Job) {
    job.CheckStamp? || job.PutStamp? || job.PutRequest? || job.Append?
  }

  function JobStep(c: Config, s: State, order: seq<Id>, ok: bool): State
    requires s.listener.Up?
  {
    if InPurge(s.listener.job) then PurgeStep(c, s, order)
    else if InSubmit(s.listener.job) then SubmitStep(s)
    else QueryStep(s, ok)
  }

  /** Making room: find a processed order and delete it everywhere. */
  function PurgeStep(c: Config, s: State, order: seq<Id>): State
    requires s.listener.Up? && InPurge(s.listener.job)
  {
    var kv := s.kv;
    match s.listener.job
    case Scan(sub, todo, found) =>
      if todo == [] then Goto(s, ReadStamps(sub, found))
      else Goto(s, Scan(sub, todo[1..], found + map id | id in Row(kv.processed, todo[0]) :: todo[0]))
    case ReadStamps(sub, found) =>
      var pick := FirstAmong(order, found.Keys);
      if pick.None? then Emit(Goto(s, Idle), Busy(sub.id))
      else Goto(s, StrikeOff(sub, pick.value, found[pick.value]))
    case StrikeOff(sub, id, w) =>
      Emit(Goto(s, DropRequest(sub, id))
           .(kv := kv.(processed := SetRow(kv.processed, w, Without(Row(kv.processed, w), id)))), Strike(id, w))
    case DropRequest(sub, id) =>
      Goto(s, DropResponse(sub, id)).(kv := kv.(requests := kv.requests - {id}))
    case DropResponse(sub, id) =>
      Emit(Goto(s, DropReceipt(sub, id)).(kv := kv.(responses := kv.responses - {id})), Erase(id))
    case DropReceipt(sub, id) =>
      Goto(s, DropStamp(sub, id)).(kv := kv.(receipts := kv.receipts - {id}))
    case DropStamp(sub, id) => AfterPurge(c, s, sub, id)
  }

  /** Accepting: timestamp, then request, then queue. */
  function SubmitStep(s: State): State
    requires s.listener.Up? && InSubmit(s.listener.job)
  {
    var kv, l, sub := s.kv, s.listener, s.listener.job.sub;
    match l.job
    case CheckStamp(_) =>
      if sub.id in kv.stamps then Emit(Goto(s, Idle), Refuse(sub.id)) else Goto(s, PutStamp(sub))
    case PutStamp(_) =>
      Emit(Goto(s, PutRequest(sub)).(kv := kv.(stamps := kv.stamps + {sub.id})), Accept(sub.id))
    case PutRequest(_) =>
      Goto(s, Append(sub)).(kv := kv.(requests := kv.requests[sub.id := sub.request]))
    case Append(_) =>
      Emit(s.(kv := kv.(scheduled := SetRow(kv.scheduled, sub.w, Row(kv.scheduled, sub.w) + [sub.id])),
              listener := Up(l.list + [sub.id], l.count + 1, Idle)), Enqueue(sub.id, sub.w))
  }

  /** Result queries and receipt creation. */
  function QueryStep(s: State, ok: bool): State
    requires s.listener.Up? && !InPurge(s.listener.job) && !InSubmit(s.listener.job)
  {
    var kv := s.kv;
    match s.listener.job
    case Idle => s
    case AskResponse(id) =>
      if id in kv.responses then Emit(Goto(s, Idle), Report(id, Answered)) else Goto(s, AskStamp(id))
    case AskStamp(id) =>
      Emit(Goto(s, Idle), Report(id, if id in kv.stamps then Pending else Unknown))
    case FindRequest(id) => Goto(s, if id in kv.requests then FindReceipt(id) else Idle)
    case FindReceipt(id) => Goto(s, if id in kv.receipts || !ok then Idle else PutReceipt(id))
    case PutReceipt(id) => Goto(s, Idle).(kv := kv.(receipts := kv.receipts + {id}))
  }

  /** The timestamp goes last; then the id leaves the internal list, which fails if it is not there. */
  function AfterPurge(c: Config, s: State, sub: Submit, id: Id): State
    requires s.listener.Up?
  {
    var l := s.listener;
    var gone := Emit(s.(kv := s.kv.(stamps := s.kv.stamps - {id})), Remove(id));
    if id !in l.list then gone.(listener := l.(job := Idle))
    else
      var shorter := gone.(listener := Up(Without(l.list, id), l.count - 1, CheckStamp(sub)));
      if l.count > c.max then Emit(Goto(shorter, Idle), Busy(sub.id)) else shorter
  }

  // ----- processors ------------------------------------------------------------------

  function SetProc(s: State, p: Identity, pc: Proc): State {
    s.(procs := s.procs[p := pc])
  }

  /** The receipt update between running and responding writes none of these tables; runs in which it
      raises an exception are excluded, like crashes of a processor. */
  function ProcStep(s: State, p: Identity, w: Worker, failed: bool): State
    requires ProcOf(s, p).Resting? ==> Row(s.kv.scheduled, w) != []
  {
    var kv := s.kv;
    match ProcOf(s, p)
    case Resting =>
      var q := Row(kv.scheduled, w);
      Emit(SetProc(s, p, Popped(q[0])).(kv := kv.(scheduled := SetRow(kv.scheduled, w, q[1..]))), Take(q[0], p, w))
    case Popped(id) =>
      if id in kv.requests then SetProc(s, p, Fetched(id, kv.requests[id]))
      else Emit(SetProc(s, p, Listed(id)), Lost(id, p))
    case Fetched(id, r) =>
      if r.parses then SetProc(s, p, Marked(id, r)).(kv := kv.(processing := kv.processing[p := id]))
      else SetProc(s, p, Rejected(id, r))
    case Marked(id, r) => Emit(SetProc(s, p, Ran(id, r, failed)), Execute(id, p))
    case Rejected(id, r) =>
      Emit(SetProc(s, p, Stored(id)).(kv := kv.(responses := kv.responses[id := Response(r, true)])), Respond(id, p))
    case Ran(id, r, bad) =>
      Emit(SetProc(s, p, Stored(id)).(kv := kv.(responses := kv.responses[id := Response(r, bad)])), Respond(id, p))
    case Stored(id) =>
      Emit(SetProc(s, p, Listed(id))
           .(kv := kv.(processed := SetRow(kv.processed, w, Row(kv.processed, w) + [id]))), Record(id, p, w))
    case Listed(_) => SetProc(s, p, Resting).(kv := kv.(processing := kv.processing - {p}))
  }

  // ----- runs --------------------------------------------------------------------------

  /** The state after a schedule, if every action of it is possible. */
  function Exec(c: Config, s: State, actions: seq<Action>): Option<State> {
    if actions == [] then Some(s)
    else
      var last := |actions| - 1;
      var before := Exec(c, s, actions[..last]);
      if before.Some? && Enabled(c, before.value, actions[last])
      then Some(Apply(c, before.value, actions[last]))
      else None
  }
}
