/**
  The services on the event bus: publishing, enqueueing a notification, the
  dispatcher's handler and the consumer loop, each proved to leave what its
  function says and to be a run of the bus.
 */
module Dispatcher {
  import opened Wrappers
  import opened Wire
  import opened EventBus
  import opened BusInvariant
  import opened Delivery

  /** Where an enqueue call stops. */
  datatype EnqueueFate = Completes | RowFails | EventFails | AppendFails

  /** What happens while one event is handled: rendering, sending, the UPDATE, the commit, the acknowledgement. */
  datatype Fate = Fate(rendered: bool, sendResolves: bool, updated: bool, committed: bool, acked: bool)

  /** The channel is asked to send. */
  predicate Attempted(n: Notification, fate: Fate) {
    n.channel in CHANNELS && fate.rendered
  }

  function Verdict(n: Notification, fate: Fate): Status {
    if Attempted(n, fate) && n.channel !in STUBS && fate.sendResolves && fate.updated then Sent else Failed
  }

  function Enqueued(w: World, nid: Id, tenant: Id, channel: string, eid: Id, at: string, fate: EnqueueFate): World {
    var m := Message(eid, tenant, REQUESTED, nid, at);
    match fate
    case RowFails => w
    case EventFails => w.(notifications := w.notifications[nid := Notification(tenant, channel, Queued)])
    case AppendFails =>
      w.(notifications := w.notifications[nid := Notification(tenant, channel, Queued)],
         events := w.events[eid := RowOf(m)])
    case Completes =>
      w.(notifications := w.notifications[nid := Notification(tenant, channel, Queued)],
         events := w.events[eid := RowOf(m)],
         stream := w.stream + [m])
  }

  /** Three steps in a row. */
  lemma ThreeLead(w: World, a: Step, b: Step, c: Step)
    ensures Leads(w, Apply(Apply(Apply(w, a), b), c))
  {
    StepLeads(w, a);
    StepLeads(Apply(w, a), b);
    StepLeads(Apply(Apply(w, a), b), c);
    LeadsOn(w, Apply(w, a), Apply(Apply(w, a), b));
    LeadsOn(w, Apply(Apply(w, a), b), Apply(Apply(Apply(w, a), b), c));
  }

  /** An enqueue call, wherever it stops, is a run. */
  lemma EnqueuedIsRun(w: World, nid: Id, tenant: Id, channel: string, eid: Id, at: string, fate: EnqueueFate)
    requires nid !in w.notifications && eid !in w.events && nid !in w.toPublish
    requires Message(eid, tenant, REQUESTED, nid, at) !in w.toAppend
    ensures Leads(w, Enqueued(w, nid, tenant, channel, eid, at, fate))
  {
    var m := Message(eid, tenant, REQUESTED, nid, at);
    var a, b := InsertRow(nid, tenant, channel), RecordRequest(nid, eid, at);
    assert w.toPublish + {nid} - {nid} == w.toPublish;
    assert w.toAppend + {m} - {m} == w.toAppend;
    match fate
    case RowFails => assert Run(w, []) == w;
    case EventFails =>
      StepLeads(w, a);
      StepLeads(Apply(w, a), AbandonRow(nid));
      LeadsOn(w, Apply(w, a), Apply(Apply(w, a), AbandonRow(nid)));
    case Completes => ThreeLead(w, a, b, Append(m));
    case AppendFails => ThreeLead(w, a, b, AbandonEvent(m));
  }

  /** Publishing any other event, whether or not the append succeeds, is a run too. */
  lemma PublishedIsRun(w: World, m: Message, appends: bool)
    requires m.id !in w.events && !IsRequest(m) && m !in w.toAppend
    ensures Leads(w, AfterPublish(w, m, appends))
  {
    var recorded, last := Apply(w, RecordOther(m)), if appends then Append(m) else AbandonEvent(m);
    StepLeads(w, RecordOther(m));
    StepLeads(recorded, last);
    assert w.toAppend + {m} - {m} == w.toAppend;
    LeadsOn(w, recorded, Apply(recorded, last));
  }

  function AfterPublish(w: World, m: Message, appends: bool): World {
    w.(events := w.events[m.id := RowOf(m)], stream := if appends then w.stream + [m] else w.stream)
  }

  // What the services leave behind, as functions of the world they start in.

  /** A consumer after its handler has resolved or thrown. */
  function After(w: World, c: Id, resolved: bool): Consumer
    requires Con(w, c).phase != Idle
  {
    Con(w, c).(phase := if resolved then Resolved(Con(w, c).phase.entry) else Idle)
  }

  function Tried(w: World, nid: Id, ok: bool): World {
    w.(sends := w.sends + [nid], delivered := if ok then w.delivered + {nid} else w.delivered)
  }

  /** Handling the current entry: settled if the transaction commits, every row as it was if not. */
  function Handled(w: World, c: Id, fate: Fate): World
    requires At(w, c) && Con(w, c).phase.Started?
  {
    var m := Current(w, c);
    if !Actionable(w, m) then With(w, c, After(w, c, true))
    else
      var n := w.notifications[m.payload];
      var tried := if Attempted(n, fate) then Tried(w, m.payload, n.channel !in STUBS && fate.sendResolves) else w;
      var settled := if fate.committed then SetStatus(tried, m.payload, Verdict(n, fate)) else tried;
      With(settled, c, After(w, c, fate.committed))
  }

  function Begun(w: World, c: Id): World
    requires Con(w, c).todo != []
  {
    With(w, c, Consumer(Con(w, c).todo[1..], Started(Con(w, c).todo[0])))
  }

  /** Leaving the current entry: acknowledged if its handler resolved and XACK went through. */
  function Left(w: World, c: Id, acks: bool): World
    requires At(w, c)
  {
    var i := Con(w, c).phase.entry;
    With(if acks then w.(acked := w.acked + {i}, pending := w.pending - {i}) else w, c, Con(w, c).(phase := Idle))
  }

  predicate HeadReady(w: World, c: Id) {
    Con(w, c).phase == Idle && Con(w, c).todo != [] && Con(w, c).todo[0] < |w.stream|
  }

  /** One entry of a batch. */
  function Consumed(w: World, c: Id, fate: Fate): World
    requires HeadReady(w, c)
  {
    var h := Handled(Begun(w, c), c, fate);
    if Con(h, c).phase == Idle then h else Left(h, c, fate.acked)
  }

  // Each of them is a run of the state machine.

  lemma HandledIsRun(w: World, c: Id, fate: Fate)
    requires At(w, c) && Con(w, c).phase.Started?
    ensures Leads(w, Handled(w, c, fate))
  {
    var m := Current(w, c);
    if !Actionable(w, m) {
      StepLeads(w, PassOver(c));
    } else {
      var n := w.notifications[m.payload];
      if !Attempted(n, fate) {
        StepLeads(w, if fate.committed then FailUnsent(c) else Throw(c));
      } else {
        var ok := n.channel !in STUBS && fate.sendResolves;
        var sent, t := Apply(w, Invoke(c, ok)), if fate.committed then Finish(c, fate.updated) else Throw(c);
        SentIsRun(w, c, fate, ok);
        StepLeads(w, Invoke(c, ok));
        StepLeads(sent, t);
        LeadsOn(w, sent, Apply(sent, t));
      }
    }
  }

  /**
    What handling one event does to the tables and the outside world. The
    tenant's notification is sent once if its template renders and its channel
    is registered; it ends `sent` exactly when a real channel's send resolves
    and the UPDATE succeeds, else `failed`; without the commit its row stays as
    it was, with the sending done all the same. Any other event does nothing.
   */
  ghost predicate Dispatches(w: World, w': World, m: Message, fate: Fate) {
    var nid := m.payload;
    w'.events == w.events && w'.toPublish == w.toPublish && w'.toAppend == w.toAppend &&
    w'.stream == w.stream && w'.cursor == w.cursor &&
    if m.eventType == "notification.requested" && nid in w.notifications && w.notifications[nid].tenant == m.tenantId
    then
      var n := w.notifications[nid];
      var genuine := n.channel in {"email", "slack", "webhook", "sms", "voice"};
      var tried := fate.rendered && (genuine || n.channel in {"whatsapp", "in_app"});
      var sent := tried && genuine && fate.sendResolves;
      w'.sends == (if tried then w.sends + [nid] else w.sends) &&
      w'.delivered == (if sent then w.delivered + {nid} else w.delivered) &&
      w'.notifications ==
        if fate.committed then w.notifications[nid := n.(status := if sent && fate.updated then Sent else Failed)]
        else w.notifications
    else w'.sends == w.sends && w'.delivered == w.delivered && w'.notifications == w.notifications
  }

  lemma HandledDispatches(w: World, c: Id, fate: Fate)
    requires At(w, c) && Con(w, c).phase.Started?
    ensures Dispatches(w, Handled(w, c, fate), Current(w, c), fate)
    ensures Handled(w, c, fate).acked == w.acked && Handled(w, c, fate).pending == w.pending
  {
  }

  lemma SentIsRun(w: World, c: Id, fate: Fate, ok: bool)
    requires At(w, c) && Con(w, c).phase.Started? && Actionable(w, Current(w, c))
    requires
      var n := w.notifications[Current(w, c).payload];
      Attempted(n, fate) && ok == (n.channel !in STUBS && fate.sendResolves)
    ensures Apply(Apply(w, Invoke(c, ok)), if fate.committed then Finish(c, fate.updated) else Throw(c)) ==
            Handled(w, c, fate)
  {
    var e, nid := Con(w, c).phase.entry, Current(w, c).payload;
    var v := With(Tried(w, nid, ok), c, Con(w, c).(phase := SendReturned(e, ok)));
    assert Apply(w, Invoke(c, ok)) == v;
    assert Con(v, c) == Con(w, c).(phase := SendReturned(e, ok));
    var k := After(w, c, fate.committed);
    assert v.consumers[c := k] == w.consumers[c := k];
  }

  lemma ConsumedIsRun(w: World, c: Id, fate: Fate)
    requires HeadReady(w, c)
    ensures Leads(w, Consumed(w, c, fate))
  {
    var b := Begun(w, c);
    StepLeads(w, Start(c));
    assert Apply(w, Start(c)) == b;
    HandledIsRun(b, c, fate);
    var h := Handled(b, c, fate);
    LeadsOn(w, b, h);
    if Con(h, c).phase != Idle {
      StepLeads(h, if fate.acked then Ack(c) else Throw(c));
      LeadsOn(w, h, Left(h, c, fate.acked));
    }
  }

  /** Handling an entry ends in its acknowledgement. */
  predicate Acknowledges(w: World, i: nat, fate: Fate) {
    i < |w.stream| && fate.acked && (fate.committed || !Actionable(w, w.stream[i]))
  }

  /** What one entry of a batch changes and what it leaves alone. */
  ghost predicate Advances(w: World, w': World, c: Id, fate: Fate)
    requires HeadReady(w, c)
  {
    w'.stream == w.stream && w'.cursor == w.cursor &&
    (forall m :: Actionable(w', m) <==> Actionable(w, m)) &&
    Con(w', c) == Consumer(Con(w, c).todo[1..], Idle) &&
    w'.acked == if Acknowledges(w, Con(w, c).todo[0], fate) then w.acked + {Con(w, c).todo[0]} else w.acked
  }

  lemma ConsumedAdvances(w: World, c: Id, fate: Fate)
    requires HeadReady(w, c)
    ensures Advances(w, Consumed(w, c, fate), c, fate)
  {
    assert Actionable(Begun(w, c), w.stream[Con(w, c).todo[0]]) == Actionable(w, w.stream[Con(w, c).todo[0]]);
  }

  /** Where a batch of `count` entries stands after its first `k`. */
  ghost predicate BatchSoFar(w: World, w': World, c: Id, count: nat, k: nat, fates: nat -> Fate) {
    k <= count && w'.stream == w.stream && w'.cursor == w.cursor + count <= |w.stream| && Leads(w, w') &&
    Con(w', c) == Consumer(Range(w.cursor + k, w.cursor + count), Idle) &&
    (forall m :: Actionable(w', m) <==> Actionable(w, m)) &&
    forall i: nat ::
      i in w'.acked <==> i in w.acked || (w.cursor <= i < w.cursor + k && Acknowledges(w, i, fates(i)))
  }

  lemma ReadStarts(w: World, c: Id, count: nat, fates: nat -> Fate)
    requires Enabled(w, Read(c, count))
    ensures BatchSoFar(w, Effect(w, Read(c, count)), c, count, 0, fates)
  {
    StepLeads(w, Read(c, count));
  }

  lemma BatchAdvances(w: World, u: World, v: World, c: Id, count: nat, k: nat, fates: nat -> Fate)
    requires k < count && BatchSoFar(w, u, c, count, k, fates)
    requires HeadReady(u, c) && Advances(u, v, c, fates(w.cursor + k)) && Leads(u, v)
    ensures BatchSoFar(w, v, c, count, k + 1, fates)
  {
    LeadsOn(w, u, v);
  }

  /**
    The bus and the two services on it, over the tables and the stream. Each
    method is proved to leave what the functions above say, and those are runs.
   */
  class Bus {
    var w: World

    constructor ()
      ensures w == INIT
    {
      w := INIT;
    }

    /**
      `publish`: commit the event row, then append to the stream. If the append
      fails the row stays and the entry never exists.
     */
    method Publish(m: Message, appends: bool)
      requires m.id !in w.events
      modifies this
      ensures w == AfterPublish(old(w), m, appends)
      ensures w.events == old(w).events[m.id := EventRow(m.tenantId, m.eventType, m.payload, m.createdAt)]
      ensures w.stream == if appends then old(w).stream + [m] else old(w).stream
      ensures w == old(w).(events := w.events, stream := w.stream)
    {
      w := w.(events := w.events[m.id := RowOf(m)]);
      if appends {
        w := w.(stream := w.stream + [m]);
      }
    }

    /** `enqueue`: commit the queued row, then publish the request for it. */
    method Enqueue(nid: Id, tenant: Id, channel: string, eid: Id, at: string, fate: EnqueueFate) returns (ok: bool)
      requires nid !in w.notifications && eid !in w.events
      modifies this
      ensures ok <==> fate == Completes
      ensures w == Enqueued(old(w), nid, tenant, channel, eid, at, fate)
      ensures w == old(w).(notifications := w.notifications, events := w.events, stream := w.stream)
      ensures w.notifications ==
        if fate == RowFails then old(w).notifications
        else old(w).notifications[nid := Notification(tenant, channel, Queued)]
      ensures w.events ==
        if fate == RowFails || fate == EventFails then old(w).events
        else old(w).events[eid := EventRow(tenant, "notification.requested", nid, at)]
      ensures w.stream ==
        if ok then old(w).stream + [Message(eid, tenant, "notification.requested", nid, at)] else old(w).stream
    {
      ok := false;
      if fate != RowFails {
        w := w.(notifications := w.notifications[nid := Notification(tenant, channel, Queued)]);
        if fate != EventFails {
          Publish(Message(eid, tenant, REQUESTED, nid, at), fate == Completes);
          ok := fate == Completes;
        }
      }
    }

    /**
      `handleEvent` for the entry consumer `c` has started, in one transaction:
      find the row, send, write the outcome; a failed commit undoes the write
      but not the sending.
     */
    method HandleEvent(c: Id, event: Message, fate: Fate) returns (resolved: bool)
      requires At(w, c) && Con(w, c).phase.Started? && Current(w, c) == event
      modifies this
      ensures w == Handled(old(w), c, fate)
      ensures Dispatches(old(w), w, event, fate) && w.acked == old(w).acked && w.pending == old(w).pending
      ensures resolved <==> Con(w, c).phase.Resolved?
      ensures !resolved ==> Actionable(old(w), event) && !fate.committed
    {
      HandledDispatches(w, c, fate);
      resolved := true;
      if Actionable(w, event) {
        var nid := event.payload;
        var n := w.notifications[nid];
        var status := Failed;
        if n.channel in CHANNELS && fate.rendered {
          var ok := n.channel !in STUBS && fate.sendResolves;
          w := Tried(w, nid, ok);
          if ok && fate.updated {
            status := Sent;
          }
        }
        if fate.committed {
          w := SetStatus(w, nid, status);
        } else {
          resolved := false;
        }
      }
      w := With(w, c, After(w, c, resolved));
    }

    /** One entry of a batch: parse it, handle it, and acknowledge it only if the handler resolved. */
    method ConsumeOne(c: Id, fate: Fate)
      requires HeadReady(w, c)
      modifies this
      ensures w == Consumed(old(w), c, fate)
      ensures Advances(old(w), w, c, fate) && Dispatches(old(w), w, old(w).stream[Con(old(w), c).todo[0]], fate)
    {
      ConsumedAdvances(w, c, fate);
      var i := Con(w, c).todo[0];
      w := Begun(w, c);
      ParseInvertsXadd(w.stream[i]);
      var parsed := ParseFields(XaddFields(w.stream[i]));
      var p := parsed.value;
      var event := Message(p.id.value, p.tenantId.value, p.eventType.value, p.payload, p.createdAt.value);
      var resolved := HandleEvent(c, event, fate);
      if resolved {
        w := Left(w, c, fate.acked);
      }
    }

    /** The same, told by what it changes and that it is a run. */
    method ConsumeNext(c: Id, fate: Fate)
      requires HeadReady(w, c)
      modifies this
      ensures Advances(old(w), w, c, fate) && Leads(old(w), w)
    {
      ConsumedIsRun(w, c, fate);
      ConsumeOne(c, fate);
    }

    /**
      One turn of the consumer loop: read a batch, then each entry in order.
      It is a run of the state machine, so it keeps all that runs keep, and
      the batch is split between acknowledged and left pending exactly by how
      its handlers and acknowledgements fared.
     */
    method ConsumeBatch(c: Id, count: nat, fates: nat -> Fate)
      requires Con(w, c) == Consumer([], Idle) && count <= 10 && w.cursor + count <= |w.stream|
      modifies this
      ensures Leads(old(w), w)
      ensures w.stream == old(w).stream && w.cursor == old(w).cursor + count && Con(w, c) == Consumer([], Idle)
      ensures forall i: nat :: i in w.acked <==>
        i in old(w).acked ||
        (old(w).cursor <= i < w.cursor && i < |old(w).stream| && fates(i).acked &&
         (fates(i).committed || !Actionable(old(w), old(w).stream[i])))
    {
      var lo := w.cursor;
      ReadStarts(w, c, count, fates);
      w := Effect(w, Read(c, count));
      for k := 0 to count
        invariant BatchSoFar(old(w), w, c, count, k, fates)
      {
        ghost var before := w;
        ConsumeNext(c, fates(lo + k));
        BatchAdvances(old(w), before, w, c, count, k, fates);
      }
    }
  }
}
