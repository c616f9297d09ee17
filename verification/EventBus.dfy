/**
  Notifications over the event bus: the queued row, the event row, the stream
  entry, the consumer group and the dispatcher, as one state machine.

  A world is the database tables and the stream, together with what the
  processes have under way: enqueue calls between their two commits, publish
  calls between their commit and their XADD, and the consumers of the
  dispatcher's group. Every failure is a step: a call may be abandoned between
  its commits, a handler or an acknowledgement may throw, a consumer may crash.

  The dispatcher never looks at a notification's status before sending. That
  each notification is nevertheless sent at most once
  (`BusInvariant.SentAtMostOnce`) is a property of the whole pipeline.
 */
module EventBus {
  import opened Wrappers
  import opened Wire

  const REQUESTED := "notification.requested"
  const READ_COUNT := 10
  const CHANNELS := {"email", "slack", "webhook", "sms", "voice", "whatsapp", "in_app"}
  const STUBS := {"whatsapp", "in_app"}

  // ---------- The world ----------

  datatype Status = Queued | Sent | Failed

  datatype Notification = Notification(tenant: Id, channel: string, status: Status)

  datatype EventRow = EventRow(tenant: Id, eventType: string, payload: string, createdAt: string)

  function RowOf(m: Message): EventRow {
    EventRow(m.tenantId, m.eventType, m.payload, m.createdAt)
  }

  /** Where a consumer is with the entry it is handling. */
  datatype Phase =
    | Idle
    | Started(entry: nat)
    | SendReturned(entry: nat, ok: bool)
    | Resolved(entry: nat)

  /** `todo` is the rest of the batch the consumer has read. */
  datatype Consumer = Consumer(todo: seq<nat>, phase: Phase)

  datatype World = World(
    notifications: map<Id, Notification>,
    events: map<Id, EventRow>,
    toPublish: set<Id>,
    toAppend: set<Message>,
    stream: seq<Message>,
    cursor: nat,
    pending: set<nat>,
    acked: set<nat>,
    consumers: map<Id, Consumer>,
    sends: seq<Id>,
    delivered: set<Id>)

  const INIT := World(map[], map[], {}, {}, [], 0, {}, {}, map[], [], {})

  function Con(w: World, c: Id): Consumer {
    if c in w.consumers then w.consumers[c] else Consumer([], Idle)
  }

  function With(w: World, c: Id, k: Consumer): World {
    w.(consumers := w.consumers[c := k])
  }

  predicate IsRequest(m: Message) {
    m.eventType == REQUESTED
  }

  /** The entry is a request and the dispatcher's tenant-scoped SELECT finds its row. */
  predicate Actionable(w: World, m: Message) {
    IsRequest(m) && m.payload in w.notifications && w.notifications[m.payload].tenant == m.tenantId
  }

  function SetStatus(w: World, nid: Id, s: Status): World
    requires nid in w.notifications
  {
    w.(notifications := w.notifications[nid := w.notifications[nid].(status := s)])
  }

  function Range(lo: nat, hi: nat): (r: seq<nat>)
    requires lo <= hi
    ensures |r| == hi - lo && forall i :: 0 <= i < |r| ==> r[i] == lo + i
  {
    seq(hi - lo, i requires 0 <= i < hi - lo => lo + i)
  }

  // ---------- Steps ----------

  datatype Step =
    | InsertRow(nid: Id, tenant: Id, channel: string)
    | RecordRequest(nid: Id, eid: Id, at: string)
    | RecordOther(m: Message)
    | Append(m: Message)
    | AbandonRow(nid: Id)
    | AbandonEvent(m: Message)
    | Read(c: Id, count: nat)
    | Start(c: Id)
    | PassOver(c: Id)
    | FailUnsent(c: Id)
    | Invoke(c: Id, ok: bool)
    | Finish(c: Id, updated: bool)
    | Throw(c: Id)
    | Ack(c: Id)
    | Crash(c: Id)

  /** The message of a consumer's current entry. */
  function Current(w: World, c: Id): Message
    requires !Con(w, c).phase.Idle? && Con(w, c).phase.entry < |w.stream|
  {
    w.stream[Con(w, c).phase.entry]
  }

  predicate At(w: World, c: Id) {
    Con(w, c).phase != Idle && Con(w, c).phase.entry < |w.stream|
  }

  predicate Enabled(w: World, s: Step) {
    match s
    case InsertRow(nid, _, _) => nid !in w.notifications
    case RecordRequest(nid, eid, _) => nid in w.toPublish && nid in w.notifications && eid !in w.events
    case RecordOther(m) => m.id !in w.events && !IsRequest(m)
    case Append(m) => m in w.toAppend
    case AbandonRow(_) => true
    case AbandonEvent(_) => true
    case Read(c, count) => Con(w, c) == Consumer([], Idle) && count <= READ_COUNT && w.cursor + count <= |w.stream|
    case Start(c) => Con(w, c).phase == Idle && Con(w, c).todo != []
    case PassOver(c) => At(w, c) && Con(w, c).phase.Started? && !Actionable(w, Current(w, c))
    case FailUnsent(c) => At(w, c) && Con(w, c).phase.Started? && Actionable(w, Current(w, c))
    case Invoke(c, ok) =>
      At(w, c) && Con(w, c).phase.Started? && Actionable(w, Current(w, c)) &&
      var channel := w.notifications[Current(w, c).payload].channel;
      channel in CHANNELS && (ok ==> channel !in STUBS)
    case Finish(c, _) => At(w, c) && Con(w, c).phase.SendReturned? && Actionable(w, Current(w, c))
    case Throw(c) => Con(w, c).phase != Idle
    case Ack(c) => At(w, c) && Con(w, c).phase.Resolved?
    case Crash(_) => true
  }

  function Effect(w: World, s: Step): World
    requires Enabled(w, s)
  {
    match s
    case InsertRow(nid, tenant, channel) =>
      w.(notifications := w.notifications[nid := Notification(tenant, channel, Queued)],
         toPublish := w.toPublish + {nid})
    case RecordRequest(nid, eid, at) =>
      var m := Message(eid, w.notifications[nid].tenant, REQUESTED, nid, at);
      w.(events := w.events[eid := RowOf(m)], toPublish := w.toPublish - {nid}, toAppend := w.toAppend + {m})
    case RecordOther(m) => w.(events := w.events[m.id := RowOf(m)], toAppend := w.toAppend + {m})
    case Append(m) => w.(stream := w.stream + [m], toAppend := w.toAppend - {m})
    case AbandonRow(nid) => w.(toPublish := w.toPublish - {nid})
    case AbandonEvent(m) => w.(toAppend := w.toAppend - {m})
    case Read(c, count) =>
      var batch := Range(w.cursor, w.cursor + count);
      With(w.(cursor := w.cursor + count, pending := w.pending + set i | i in batch), c, Consumer(batch, Idle))
    case Start(c) => With(w, c, Consumer(Con(w, c).todo[1..], Started(Con(w, c).todo[0])))
    case PassOver(c) => With(w, c, Con(w, c).(phase := Resolved(Con(w, c).phase.entry)))
    case FailUnsent(c) =>
      With(SetStatus(w, Current(w, c).payload, Failed), c, Con(w, c).(phase := Resolved(Con(w, c).phase.entry)))
    case Invoke(c, ok) =>
      var nid := Current(w, c).payload;
      With(w.(sends := w.sends + [nid], delivered := if ok then w.delivered + {nid} else w.delivered),
           c, Con(w, c).(phase := SendReturned(Con(w, c).phase.entry, ok)))
    case Finish(c, updated) =>
      var status := if Con(w, c).phase.ok && updated then Sent else Failed;
      With(SetStatus(w, Current(w, c).payload, status), c, Con(w, c).(phase := Resolved(Con(w, c).phase.entry)))
    case Throw(c) => With(w, c, Con(w, c).(phase := Idle))
    case Ack(c) =>
      var i := Con(w, c).phase.entry;
      With(w.(acked := w.acked + {i}, pending := w.pending - {i}), c, Con(w, c).(phase := Idle))
    case Crash(c) => With(w, c, Consumer([], Idle))
  }

  /** A step that is not enabled does not happen. */
  function Apply(w: World, s: Step): World {
    if Enabled(w, s) then Effect(w, s) else w
  }

  function Run(w: World, ss: seq<Step>): World {
    if ss == [] then w else Apply(Run(w, ss[..|ss| - 1]), ss[|ss| - 1])
  }

  // ---------- The invariant: tables and stream ----------

  /** A published event: on its way to the stream or in it. */
  ghost predicate Published(w: World, m: Message) {
    m in w.toAppend || m in w.stream
  }

  ghost predicate Recorded(w: World) {
    && (forall m :: Published(w, m) ==> m.id in w.events && w.events[m.id] == RowOf(m))
    && (forall m :: m in w.toAppend ==> m !in w.stream)
    && (forall i, j :: 0 <= i < j < |w.stream| ==> w.stream[i] != w.stream[j])
  }

  ghost predicate RequestsHaveRows(w: World) {
    && (forall m :: Published(w, m) && IsRequest(m) ==>
          m.payload in w.notifications && w.notifications[m.payload].tenant == m.tenantId)
    && (forall m :: Published(w, m) && IsRequest(m) ==> m.payload !in w.toPublish)
    && (forall m, m' :: Published(w, m) && Published(w, m') && IsRequest(m) && IsRequest(m') && m.payload == m'.payload
          ==> m == m')
  }

  // ---------- The invariant: delivery ----------

  predicate Holds(k: Consumer, i: nat) {
    i in k.todo || (k.phase != Idle && k.phase.entry == i)
  }

  ghost predicate GroupSplit(w: World) {
    && w.cursor <= |w.stream|
    && (forall i :: i in w.acked ==> i < w.cursor && i !in w.pending)
    && (forall i :: i in w.pending ==> i < w.cursor)
    && (forall i :: 0 <= i < w.cursor ==> i in w.acked || i in w.pending)
  }

  ghost predicate HeldOnce(w: World) {
    && (forall c, i :: Holds(Con(w, c), i) ==> i in w.pending)
    && (forall c, d, i :: Holds(Con(w, c), i) && Holds(Con(w, d), i) ==> c == d)
    && (forall c, a, b :: 0 <= a < b < |Con(w, c).todo| ==> Con(w, c).todo[a] != Con(w, c).todo[b])
    && (forall c :: Con(w, c).phase != Idle ==> Con(w, c).phase.entry !in Con(w, c).todo)
  }

  // ---------- The invariant: sends and statuses ----------

  /** The consumer has not called `send` for entry `i` yet. */
  predicate Waits(k: Consumer, i: nat) {
    i in k.todo || k.phase == Started(i)
  }

  ghost predicate SendsOnce(w: World) {
    && (forall a, b :: 0 <= a < b < |w.sends| ==> w.sends[a] != w.sends[b])
    && (forall nid :: nid in w.sends ==> nid in w.notifications && nid !in w.toPublish)
    && (forall m :: m in w.toAppend && IsRequest(m) ==> m.payload !in w.sends)
    && (forall i :: w.cursor <= i < |w.stream| && IsRequest(w.stream[i]) ==> w.stream[i].payload !in w.sends)
    && (forall c, i: nat :: Waits(Con(w, c), i) && i < |w.stream| && IsRequest(w.stream[i]) ==>
          w.stream[i].payload !in w.sends)
  }

  predicate Settled(w: World, m: Message) {
    IsRequest(m) ==> m.payload in w.notifications && w.notifications[m.payload].status != Queued
  }

  ghost predicate AckedSettled(w: World) {
    && (forall i :: i in w.acked && i < |w.stream| ==> Settled(w, w.stream[i]))
    && (forall c :: Con(w, c).phase.Resolved? && At(w, c) ==> Settled(w, Current(w, c)))
  }

  ghost predicate SentHonest(w: World) {
    && (forall nid :: nid in w.notifications && w.notifications[nid].status == Sent ==> nid in w.delivered)
    && (forall nid :: nid in w.delivered ==> nid in w.sends && nid in w.notifications)
    && (forall nid :: nid in w.delivered ==> w.notifications[nid].channel in CHANNELS - STUBS)
    && (forall c :: Con(w, c).phase.SendReturned? && At(w, c) ==>
          IsRequest(Current(w, c)) && (Con(w, c).phase.ok ==> Current(w, c).payload in w.delivered))
  }

  ghost predicate StatusesHonest(w: World) {
    AckedSettled(w) && SentHonest(w)
  }

  ghost predicate Inv(w: World) {
    Recorded(w) && RequestsHaveRows(w) && GroupSplit(w) && HeldOnce(w) && SendsOnce(w) && StatusesHonest(w)
  }
}
